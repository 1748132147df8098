/** Commands on Windows. To run a batch file the line passes through cmd.exe, once to start the file
    and once more where the file hands on `%*`, and the program's C runtime then splits it. The
    second half of this module is those readers; the theorem is that what they deliver is what was
    asked for, exactly when it can be. */
module WindowsExec {
  import opened Basics

  datatype SpawnPlan = SpawnPlan(file: string, args: seq<string>, verbatim: bool)

  // ---------------------------------------------------------------- writing the line

  const CMD_META: string := "()][%!^\"`<>&|;, *?"

  predicate IsMeta(c: char) {
    c in CMD_META
  }

  function EscapeChar(c: char): string {
    if IsMeta(c) then ['^', c] else [c]
  }

  function Escape(s: string): string {
    Spread(EscapeChar, s)
  }

  function Backslashes(n: nat): string {
    seq(n, _ => '\\')
  }

  /** What the quoting loop still has to write, with a run of backslashes waiting. */
  function QuoteFrom(s: string, waiting: nat): string {
    if s == "" then Backslashes(waiting * 2) + "\""
    else if s[0] == '\\' then QuoteFrom(s[1..], waiting + 1)
    else Backslashes(if s[0] == '"' then waiting * 2 + 1 else waiting) + ([s[0]] + QuoteFrom(s[1..], 0))
  }

  function QuotedForWindows(argument: string): string {
    "\"" + QuoteFrom(argument, 0)
  }

  /** Quotes one argument. A run of backslashes is doubled if a quote comes right after it. */
  method QuoteForWindows(argument: string) returns (quoted: string)
    ensures quoted == QuotedForWindows(argument)
  {
    quoted := "\"";
    var backslashes := 0;
    for i := 0 to |argument|
      invariant quoted + QuoteFrom(argument[i..], backslashes) == QuotedForWindows(argument)
    {
      var c := argument[i];
      assert argument[i..][0] == c && argument[i..][1..] == argument[i + 1..];
      if c == '\\' {
        backslashes := backslashes + 1;
      } else {
        var run := if c == '"' then backslashes * 2 + 1 else backslashes;
        Associate(quoted, Backslashes(run), [c] + QuoteFrom(argument[i + 1..], 0));
        Associate(quoted + Backslashes(run), [c], QuoteFrom(argument[i + 1..], 0));
        quoted := quoted + Backslashes(run) + [c];
        backslashes := 0;
      }
    }
    assert argument[|argument|..] == "";
    Associate(quoted, Backslashes(backslashes * 2), "\"");
    quoted := quoted + Backslashes(backslashes * 2) + "\"";
  }

  function EscapedArgument(argument: string): string {
    Escape(Escape(QuotedForWindows(argument)))
  }

  /** The pieces after the first, each with a space in front. */
  function Spaced(pieces: seq<string>): string {
    if pieces == [] then "" else " " + (pieces[0] + Spaced(pieces[1..]))
  }

  function Mapped(f: string -> string, args: seq<string>): seq<string> {
    if args == [] then [] else [f(args[0])] + Mapped(f, args[1..])
  }

  function BatchLine(file: string, args: seq<string>): string {
    Escape(file) + Spaced(Mapped(EscapedArgument, args))
  }

  function Lower(s: string): string {
    seq(|s|, i requires 0 <= i < |s| =>
      if 'A' <= s[i] <= 'Z' then (s[i] as int + 32) as char else s[i])
  }

  predicate IsBatchFile(file: string) {
    |file| >= 4 && Lower(file[|file| - 4..]) in [".cmd", ".bat"]
  }

  function SpawnPlanFor(file: string, args: seq<string>, windows: bool, comspec: Option<string>): SpawnPlan {
    if !windows || !IsBatchFile(file) then SpawnPlan(file, args, false)
    else
      SpawnPlan(
        if comspec.Some? then comspec.value else "cmd.exe",
        ["/d", "/s", "/c", "\"" + BatchLine(file, args) + "\""],
        true)
  }

  // ---------------------------------------------------------------- reading it: cmd.exe

  /** A character cmd.exe took from the line, and whether it still means something to cmd.exe. */
  datatype Mark = Mark(c: char, live: bool)

  /** One reading of a line: what came of it, and whether quote mode was ever entered. */
  datatype CmdReading = CmdReading(marks: seq<Mark>, quoteMode: bool)

  predicate IsBreak(c: char) {
    c == '\n' || c == '\r'
  }

  function Taken(c: char, live: bool, more: CmdReading): CmdReading {
    more.(marks := [Mark(c, live)] + more.marks)
  }

  /** One pass of cmd.exe over a line. A caret takes the next character as text, a quote
      begins or ends the stretch where carets are text too, a line feed ends the line and a
      carriage return is dropped. */
  function CmdPass(s: string, quoted: bool): CmdReading
    decreases |s|
  {
    if s == "" || s[0] == '\n' then CmdReading([], false)
    else if s[0] == '\r' then CmdPass(s[1..], quoted)
    else if quoted then Taken(s[0], false, CmdPass(s[1..], s[0] != '"'))
    else if s[0] == '^' then
      if |s| == 1 || IsBreak(s[1]) then CmdPass(s[1..], false) else Taken(s[1], false, CmdPass(s[2..], false))
    else if s[0] == '"' then
      Taken('"', true, CmdPass(s[1..], true)).(quoteMode := true)
    else Taken(s[0], true, CmdPass(s[1..], false))
  }

  /** A quote no caret takes enters quote mode, wherever in a line it comes, and whatever comes after. */
  lemma {:induction false} QuoteEnters(before: string, after: string)
    requires forall i | 0 <= i < |before| :: before[i] !in "^\"\n\r"
    ensures CmdPass(before + "\"" + after, false).quoteMode
  {
    if before == "" {
      assert before + "\"" + after == "\"" + after;
    } else {
      assert (before + "\"" + after)[1..] == before[1..] + "\"" + after;
      QuoteEnters(before[1..], after);
    }
  }

  /** What parts a command's name from its arguments. */
  predicate PartsCommand(m: Mark) {
    m.live && m.c in " \t,;="
  }

  function NameLength(marks: seq<Mark>): (n: nat)
    ensures n <= |marks|
  {
    if marks == [] || PartsCommand(marks[0]) then 0 else 1 + NameLength(marks[1..])
  }

  function Chars(marks: seq<Mark>): string {
    if marks == [] then "" else [marks[0].c] + Chars(marks[1..])
  }

  function CommandName(marks: seq<Mark>): string {
    Chars(marks[..NameLength(marks)])
  }

  /** What `%*` stands for inside the batch file. */
  function ArgumentText(marks: seq<Mark>): string {
    var n := NameLength(marks);
    if n == |marks| then "" else Chars(marks[n + 1..])
  }

  // ---------------------------------------------------------------- reading it: the C runtime

  function Add(current: Option<string>, s: string): Option<string> {
    if s == "" then current else Some((if current.Some? then current.value else "") + s)
  }

  /** The Microsoft C runtime's splitting of a command tail, `waiting` being the run of
      backslashes just passed. */
  function CrtSplit(s: string, waiting: nat, quoted: bool, current: Option<string>): seq<string>
    decreases |s|
  {
    if s == "" then
      (match Add(current, Backslashes(waiting)) case None => [] case Some(last) => [last])
    else if s[0] == '\\' then CrtSplit(s[1..], waiting + 1, quoted, current)
    else if s[0] == '"' then
      var known := Some((if current.Some? then current.value else "") + Backslashes(waiting / 2));
      if waiting % 2 == 1 then CrtSplit(s[1..], 0, quoted, Add(known, "\""))
      else if quoted && |s| > 1 && s[1] == '"' then CrtSplit(s[2..], 0, true, Add(known, "\""))
      else CrtSplit(s[1..], 0, !quoted, known)
    else if !quoted && (s[0] == ' ' || s[0] == '\t') then
      (match Add(current, Backslashes(waiting)) case None => [] case Some(done) => [done])
      + CrtSplit(s[1..], 0, false, None)
    else CrtSplit(s[1..], 0, quoted, Add(current, Backslashes(waiting) + [s[0]]))
  }

  // ---------------------------------------------------------------- reading it: all of it

  /** What `/s /c` leaves of its argument: the first and last quote are taken off. */
  function Unwrapped(s: string): string
    requires |s| >= 2
  {
    s[1..|s| - 1]
  }

  datatype Delivery = Delivery(
    command: string, args: seq<string>, live1: seq<char>, live2: seq<char>, quoteMode: bool)

  function LiveOf(marks: seq<Mark>): seq<char> {
    if marks == [] then [] else (if marks[0].live && IsMeta(marks[0].c) then [marks[0].c] else []) + LiveOf(marks[1..])
  }

  /** The program that runs and the arguments it is given, with what cmd.exe saw on the way. */
  function Delivered(line: string): Delivery {
    var first := CmdPass(line, false);
    var second := CmdPass(ArgumentText(first.marks), false);
    Delivery(
      CommandName(first.marks), CrtSplit(Chars(second.marks), 0, false, None),
      LiveOf(first.marks), LiveOf(second.marks), first.quoteMode || second.quoteMode)
  }

  // ---------------------------------------------------------------- one escaped stretch

  predicate NoBreaks(s: string) {
    forall i | 0 <= i < |s| :: !IsBreak(s[i])
  }

  /** An unescaped, dead copy of a text: nothing in it means anything to cmd.exe, except that a
      character cmd.exe never escapes may still part a command's name. */
  function Dead(s: string): seq<Mark> {
    if s == "" then [] else [Mark(s[0], !IsMeta(s[0]))] + Dead(s[1..])
  }

  lemma {:induction false} PassEscaped(s: string, rest: string)
    requires NoBreaks(s)
    ensures CmdPass(Escape(s) + rest, false)
         == CmdReading(Dead(s) + CmdPass(rest, false).marks, CmdPass(rest, false).quoteMode)
  {
    if s == "" {
      assert Escape(s) + rest == rest && Dead(s) + CmdPass(rest, false).marks == CmdPass(rest, false).marks;
    } else {
      PassEscaped(s[1..], rest);
      SpreadFirst(EscapeChar, s, rest);
      var t := Escape(s[1..]) + rest;
      assert Escape(s) + rest == EscapeChar(s[0]) + t;
      var u := EscapeChar(s[0]) + t;
      Associate([Mark(s[0], !IsMeta(s[0]))], Dead(s[1..]), CmdPass(rest, false).marks);
      if IsMeta(s[0]) {
        assert u[0] == '^' && u[1] == s[0] && u[2..] == t;
      } else {
        assert IsMeta('^') && IsMeta('"') by {
          assert CMD_META[6] == '^' && CMD_META[7] == '"';
        }
        assert u[0] == s[0] && u[1..] == t;
      }
    }
  }

  // ---------------------------------------------------------------- one pass over a whole line

  /** What a pass makes of pieces each escaped once and parted by single spaces. */
  function SpacedMarks(pieces: seq<string>): seq<Mark> {
    if pieces == [] then [] else [Mark(' ', true)] + (Dead(pieces[0]) + SpacedMarks(pieces[1..]))
  }

  predicate AllNoBreaks(pieces: seq<string>) {
    forall i | 0 <= i < |pieces| :: NoBreaks(pieces[i])
  }

  lemma {:induction false} PassSpaced(pieces: seq<string>)
    requires AllNoBreaks(pieces)
    ensures CmdPass(Spaced(Mapped(Escape, pieces)), false) == CmdReading(SpacedMarks(pieces), false)
  {
    if pieces != [] {
      var more := Spaced(Mapped(Escape, pieces[1..]));
      PassSpaced(pieces[1..]);
      PassEscaped(pieces[0], more);
      var u := " " + (Escape(pieces[0]) + more);
      assert Spaced(Mapped(Escape, pieces)) == u;
      assert u[0] == ' ' && u[1..] == Escape(pieces[0]) + more;
    }
  }

  lemma {:induction false} DeadChars(s: string, rest: seq<Mark>)
    ensures Chars(Dead(s) + rest) == s + Chars(rest)
    ensures LiveOf(Dead(s) + rest) == LiveOf(rest)
  {
    if s == "" {
      assert Dead(s) + rest == rest && s + Chars(rest) == Chars(rest);
    } else {
      DeadChars(s[1..], rest);
      var m := Mark(s[0], !IsMeta(s[0]));
      assert Dead(s) + rest == [m] + (Dead(s[1..]) + rest);
      Associate([s[0]], s[1..], Chars(rest));
      assert [s[0]] + s[1..] == s;
      assert LiveOf([m] + (Dead(s[1..]) + rest)) == [] + LiveOf(Dead(s[1..]) + rest);
    }
  }

  function Spaces(n: nat): seq<char> {
    seq(n, _ => ' ')
  }

  lemma {:induction false} SpacedMarksChars(pieces: seq<string>)
    ensures Chars(SpacedMarks(pieces)) == Spaced(pieces)
    ensures LiveOf(SpacedMarks(pieces)) == Spaces(|pieces|)
  {
    if pieces != [] {
      SpacedMarksChars(pieces[1..]);
      var rest := Dead(pieces[0]) + SpacedMarks(pieces[1..]);
      DeadChars(pieces[0], SpacedMarks(pieces[1..]));
      assert SpacedMarks(pieces)[1..] == rest;
      assert IsMeta(' ') by {
        assert CMD_META[15] == ' ';
      }
      assert [' '] + Spaces(|pieces| - 1) == Spaces(|pieces|);
    }
  }

  /** Characters cmd.exe takes as the end of a command's name and nothing here escapes. */
  predicate EndsName(c: char) {
    c == '\t' || c == '='
  }

  lemma NamePart(c: char)
    ensures PartsCommand(Mark(c, !IsMeta(c))) <==> EndsName(c)
  {
    assert CMD_META[13] == ';' && CMD_META[14] == ',' && CMD_META[15] == ' ';
    assert " \t,;="[1] == '\t' && " \t,;="[4] == '=';
  }

  /** The name read is the file exactly where the file holds nothing that ends a name. */
  lemma {:induction false} NameOfDead(file: string, rest: seq<Mark>)
    requires rest == [] || PartsCommand(rest[0])
    ensures (forall i | 0 <= i < |file| :: !EndsName(file[i])) ==> NameLength(Dead(file) + rest) == |file|
    ensures (exists i | 0 <= i < |file| :: EndsName(file[i])) ==> NameLength(Dead(file) + rest) < |file|
  {
    hide IsMeta;
    hide PartsCommand;
    if file == "" {
      assert Dead(file) + rest == rest;
    } else {
      NamePart(file[0]);
      NameOfDead(file[1..], rest);
      var m := Mark(file[0], !IsMeta(file[0]));
      assert Dead(file) + rest == [m] + (Dead(file[1..]) + rest);
      if i :| 0 <= i < |file| && EndsName(file[i]) {
        if i > 0 {
          assert EndsName(file[1..][i - 1]);
        }
      }
    }
  }

  lemma {:induction false} DeadLength(s: string)
    ensures |Dead(s)| == |s| && Chars(Dead(s)) == s
  {
    if s != "" {
      DeadLength(s[1..]);
      assert Dead(s)[1..] == Dead(s[1..]);
      assert [s[0]] + s[1..] == s;
    }
  }

  // ---------------------------------------------------------------- the runtime undoes the quoting

  lemma {:induction false} CrtBackslashes(n: nat, s: string, waiting: nat, quoted: bool, current: Option<string>)
    ensures CrtSplit(Backslashes(n) + s, waiting, quoted, current) == CrtSplit(s, waiting + n, quoted, current)
  {
    if n == 0 {
      assert Backslashes(0) + s == s;
    } else {
      var t := Backslashes(n) + s;
      assert t[0] == '\\' && t[1..] == Backslashes(n - 1) + s;
      CrtBackslashes(n - 1, s, waiting + 1, quoted, current);
    }
  }

  /** The quoted rest of an argument, read inside its quotes, adds the argument and closes. */
  lemma {:induction false} CrtQuoted(s: string, waiting: nat, rest: string, known: string)
    requires rest == "" || rest[0] == ' '
    ensures CrtSplit(QuoteFrom(s, waiting) + rest, 0, true, Some(known))
         == CrtSplit(rest, 0, false, Some(known + Backslashes(waiting) + s))
    decreases |s|
  {
    if s == "" {
      CrtClose(waiting, rest, known);
    } else if s[0] == '\\' {
      CrtQuoted(s[1..], waiting + 1, rest, known);
      assert known + Backslashes(waiting + 1) + s[1..] == known + Backslashes(waiting) + s;
    } else {
      var n := if s[0] == '"' then waiting * 2 + 1 else waiting;
      var tail := QuoteFrom(s[1..], 0) + rest;
      Regroup(Backslashes(n), [s[0]], QuoteFrom(s[1..], 0), rest);
      CrtBackslashes(n, [s[0]] + tail, 0, true, Some(known));
      CrtCharacter(s[0], n, tail, known);
      assert Backslashes(waiting) + [s[0]] != "";
      CrtQuoted(s[1..], 0, rest, known + Backslashes(waiting) + [s[0]]);
      assert known + Backslashes(waiting) + [s[0]] + Backslashes(0) + s[1..] == known + Backslashes(waiting) + s;
    }
  }

  lemma CrtClose(waiting: nat, rest: string, known: string)
    requires rest == "" || rest[0] == ' '
    ensures CrtSplit(QuoteFrom("", waiting) + rest, 0, true, Some(known))
         == CrtSplit(rest, 0, false, Some(known + Backslashes(waiting) + ""))
  {
    Associate(Backslashes(waiting * 2), "\"", rest);
    CrtBackslashes(waiting * 2, "\"" + rest, 0, true, Some(known));
    var u := "\"" + rest;
    assert u[0] == '"' && u[1..] == rest && (|u| > 1 ==> u[1] == ' ');
    assert known + Backslashes(waiting) + "" == known + Backslashes(waiting);
    assert waiting * 2 / 2 == waiting;
  }

  lemma CrtCharacter(c: char, n: nat, tail: string, known: string)
    requires c != '\\' && (c == '"' ==> n % 2 == 1)
    ensures CrtSplit([c] + tail, n, true, Some(known))
         == CrtSplit(tail, 0, true, Some(known + Backslashes(if c == '"' then n / 2 else n) + [c]))
  {
    var u := [c] + tail;
    assert u[0] == c && u[1..] == tail;
    Associate(known, Backslashes(n), [c]);
  }

  lemma {:induction false} CrtArguments(args: seq<string>, current: string)
    ensures CrtSplit(Spaced(Mapped(QuotedForWindows, args)), 0, false, Some(current)) == [current] + args
  {
    if args == [] {
    } else {
      var more := Spaced(Mapped(QuotedForWindows, args[1..]));
      var u := " " + (QuotedForWindows(args[0]) + more);
      assert Spaced(Mapped(QuotedForWindows, args)) == u;
      assert u[0] == ' ' && u[1..] == QuotedForWindows(args[0]) + more;
      CrtFirst(args[0], more, args[1..]);
      CrtArguments(args[1..], args[0]);
      assert [args[0]] + args[1..] == args;
    }
  }

  lemma CrtFirst(arg: string, more: string, rest: seq<string>)
    requires more == Spaced(Mapped(QuotedForWindows, rest))
    ensures CrtSplit(QuotedForWindows(arg) + more, 0, false, None) == CrtSplit(more, 0, false, Some(arg))
  {
    Associate("\"", QuoteFrom(arg, 0), more);
    var u := "\"" + (QuoteFrom(arg, 0) + more);
    assert u[0] == '"' && u[1..] == QuoteFrom(arg, 0) + more;
    CrtQuoted(arg, 0, more, "");
    assert "" + Backslashes(0) + arg == arg && "" + Backslashes(0) == "";
  }

  // ---------------------------------------------------------------- the whole line

  lemma {:induction false} MappedTwice(args: seq<string>)
    ensures Mapped(EscapedArgument, args) == Mapped(Escape, Mapped(Escape, Mapped(QuotedForWindows, args)))
    ensures |Mapped(QuotedForWindows, args)| == |args|
  {
    if args != [] {
      MappedTwice(args[1..]);
      var quoted := Mapped(QuotedForWindows, args);
      assert quoted[1..] == Mapped(QuotedForWindows, args[1..]);
      assert Mapped(Escape, quoted)[1..] == Mapped(Escape, quoted[1..]);
    }
  }

  lemma {:induction false} NoBreaksConcat(a: string, b: string)
    ensures NoBreaks(a + b) <==> NoBreaks(a) && NoBreaks(b)
  {
    assert forall i | 0 <= i < |a| :: a[i] == (a + b)[i];
    assert forall i | 0 <= i < |b| :: b[i] == (a + b)[|a| + i];
  }

  lemma {:induction false} EscapeNoBreaks(s: string)
    requires NoBreaks(s)
    ensures NoBreaks(Escape(s))
  {
    if s != "" {
      EscapeNoBreaks(s[1..]);
      NoBreaksConcat(EscapeChar(s[0]), Escape(s[1..]));
    }
  }

  lemma {:induction false} QuoteNoBreaks(s: string, waiting: nat)
    requires NoBreaks(s)
    ensures NoBreaks(QuoteFrom(s, waiting))
    decreases |s|
  {
    if s == "" {
    } else if s[0] == '\\' {
      QuoteNoBreaks(s[1..], waiting + 1);
    } else {
      QuoteNoBreaks(s[1..], 0);
      var n := if s[0] == '"' then waiting * 2 + 1 else waiting;
      NoBreaksConcat([s[0]], QuoteFrom(s[1..], 0));
      NoBreaksConcat(Backslashes(n), [s[0]] + QuoteFrom(s[1..], 0));
    }
  }

  lemma {:induction false} PiecesNoBreaks(args: seq<string>)
    requires AllNoBreaks(args)
    ensures AllNoBreaks(Mapped(QuotedForWindows, args))
    ensures AllNoBreaks(Mapped(Escape, Mapped(QuotedForWindows, args)))
  {
    if args != [] {
      assert AllNoBreaks(args[1..]);
      PiecesNoBreaks(args[1..]);
      QuoteNoBreaks(args[0], 0);
      NoBreaksConcat("\"", QuoteFrom(args[0], 0));
      EscapeNoBreaks(QuotedForWindows(args[0]));
      var quoted := Mapped(QuotedForWindows, args);
      assert quoted[1..] == Mapped(QuotedForWindows, args[1..]);
    }
  }

  predicate NamesCleanly(file: string) {
    forall i | 0 <= i < |file| :: !EndsName(file[i])
  }

  lemma FirstPass(file: string, args: seq<string>)
    requires NoBreaks(file) && AllNoBreaks(args)
    ensures var once := Mapped(Escape, Mapped(QuotedForWindows, args));
      CmdPass(BatchLine(file, args), false) == CmdReading(Dead(file) + SpacedMarks(once), false)
  {
    PiecesNoBreaks(args);
    MappedTwice(args);
    var once := Mapped(Escape, Mapped(QuotedForWindows, args));
    PassSpaced(once);
    PassEscaped(file, Spaced(Mapped(Escape, once)));
  }

  lemma AfterName(file: string, pieces: seq<string>)
    requires NamesCleanly(file)
    ensures var marks := Dead(file) + SpacedMarks(pieces);
      && CommandName(marks) == file
      && ArgumentText(marks) == if pieces == [] then "" else pieces[0] + Spaced(pieces[1..])
  {
    var rest := SpacedMarks(pieces);
    DeadLength(file);
    SpaceParts();
    NameOfDead(file, rest);
    Slices(Dead(file), rest);
    if pieces != [] {
      DeadChars(pieces[0], SpacedMarks(pieces[1..]));
      SpacedMarksChars(pieces[1..]);
      assert rest[1..] == Dead(pieces[0]) + SpacedMarks(pieces[1..]);
    }
  }

  lemma SpaceParts()
    ensures PartsCommand(Mark(' ', true))
  {
    assert " \t,;="[0] == ' ';
  }

  lemma SecondPass(quoted: seq<string>)
    requires AllNoBreaks(quoted) && quoted != []
    ensures var once := Mapped(Escape, quoted);
      CmdPass(once[0] + Spaced(once[1..]), false)
      == CmdReading(Dead(quoted[0]) + SpacedMarks(quoted[1..]), false)
  {
    var once := Mapped(Escape, quoted);
    assert once[1..] == Mapped(Escape, quoted[1..]);
    PassSpaced(quoted[1..]);
    PassEscaped(quoted[0], Spaced(once[1..]));
  }

  /** Where nothing in the way is a line break, the file runs and gets exactly its arguments;
      cmd.exe never enters quote mode, and the only characters it sees alive are the spaces
      between the pieces. */
  lemma DeliversAll(file: string, args: seq<string>)
    requires NoBreaks(file) && NamesCleanly(file) && AllNoBreaks(args)
    ensures Delivered(BatchLine(file, args))
         == Delivery(file, args, Spaces(|args|), Spaces(if args == [] then 0 else |args| - 1), false)
  {
    hide IsMeta;
    hide CmdPass;
    hide CrtSplit;
    hide QuoteFrom;
    var quoted := Mapped(QuotedForWindows, args);
    var once := Mapped(Escape, quoted);
    MappedTwice(args);
    FirstPass(file, args);
    AfterName(file, once);
    DeadChars(file, SpacedMarks(once));
    SpacedMarksChars(once);
    MappedLength(Escape, quoted);
    if args != [] {
      PiecesNoBreaks(args);
      SecondPass(quoted);
      DeadChars(quoted[0], SpacedMarks(quoted[1..]));
      SpacedMarksChars(quoted[1..]);
      assert quoted[1..] == Mapped(QuotedForWindows, args[1..]);
      CrtFirst(args[0], Spaced(quoted[1..]), args[1..]);
      CrtArguments(args[1..], args[0]);
      assert [args[0]] + args[1..] == args;
    } else {
      NothingMore();
    }
  }

  lemma NothingMore()
    ensures CmdPass("", false) == CmdReading([], false)
    ensures CrtSplit("", 0, false, None) == []
  {
  }

  lemma {:induction false} MappedLength(f: string -> string, args: seq<string>)
    ensures |Mapped(f, args)| == |args|
  {
    if args != [] {
      MappedLength(f, args[1..]);
    }
  }

  // ---------------------------------------------------------------- and otherwise it cannot

  lemma {:induction false} PassHasNoBreaks(s: string, quoted: bool)
    ensures forall i | 0 <= i < |CmdPass(s, quoted).marks| :: !IsBreak(CmdPass(s, quoted).marks[i].c)
    decreases |s|
  {
    if s == "" || s[0] == '\n' {
    } else if s[0] == '\r' {
      PassHasNoBreaks(s[1..], quoted);
    } else if quoted {
      PassHasNoBreaks(s[1..], s[0] != '"');
    } else if s[0] == '^' {
      if |s| == 1 || IsBreak(s[1]) {
        PassHasNoBreaks(s[1..], false);
      } else {
        PassHasNoBreaks(s[2..], false);
      }
    } else {
      PassHasNoBreaks(s[1..], s[0] == '"');
    }
  }

  lemma {:induction false} CharsNoBreaks(marks: seq<Mark>)
    requires forall i | 0 <= i < |marks| :: !IsBreak(marks[i].c)
    ensures NoBreaks(Chars(marks))
  {
    if marks != [] {
      CharsNoBreaks(marks[1..]);
    }
  }

  lemma {:induction false} CrtNoBreaks(s: string, waiting: nat, quoted: bool, current: Option<string>)
    requires NoBreaks(s) && (current.Some? ==> NoBreaks(current.value))
    ensures AllNoBreaks(CrtSplit(s, waiting, quoted, current))
    decreases |s|
  {
    var known := if current.Some? then current.value else "";
    NoBreaksConcat(known, Backslashes(waiting));
    if s == "" {
    } else if s[0] == '\\' {
      CrtNoBreaks(s[1..], waiting + 1, quoted, current);
    } else if s[0] == '"' {
      var half := known + Backslashes(waiting / 2);
      NoBreaksConcat(known, Backslashes(waiting / 2));
      NoBreaksConcat(half, "\"");
      if waiting % 2 == 1 {
        CrtNoBreaks(s[1..], 0, quoted, Some(half + "\""));
      } else if quoted && |s| > 1 && s[1] == '"' {
        CrtNoBreaks(s[2..], 0, true, Some(half + "\""));
      } else {
        CrtNoBreaks(s[1..], 0, !quoted, Some(half));
      }
    } else if !quoted && (s[0] == ' ' || s[0] == '\t') {
      CrtNoBreaks(s[1..], 0, false, None);
    } else {
      var piece := Backslashes(waiting) + [s[0]];
      NoBreaksConcat(Backslashes(waiting), [s[0]]);
      NoBreaksConcat(known, piece);
      CrtNoBreaks(s[1..], 0, quoted, Add(current, piece));
    }
  }

  lemma NothingDeliveredBreaks(line: string)
    ensures NoBreaks(Delivered(line).command) && AllNoBreaks(Delivered(line).args)
  {
    var first := CmdPass(line, false).marks;
    PassHasNoBreaks(line, false);
    CharsNoBreaks(first[..NameLength(first)]);
    var text := ArgumentText(first);
    PassHasNoBreaks(text, false);
    CharsNoBreaks(CmdPass(text, false).marks);
    CrtNoBreaks(Chars(CmdPass(text, false).marks), 0, false, None);
  }

  lemma {:induction false} CharsLength(marks: seq<Mark>)
    ensures |Chars(marks)| == |marks|
  {
    if marks != [] {
      CharsLength(marks[1..]);
    }
  }

  /** The line delivers its file and arguments exactly when none of them holds a line break
      and the file's own path holds no tab and no equals sign, which cmd.exe takes as the end
      of a command's name and which are not escaped. */
  lemma DeliveredExactly(file: string, args: seq<string>)
    ensures var d := Delivered(BatchLine(file, args));
      d.command == file && d.args == args
      <==> NoBreaks(file) && NamesCleanly(file) && AllNoBreaks(args)
  {
    var d := Delivered(BatchLine(file, args));
    if NoBreaks(file) && NamesCleanly(file) && AllNoBreaks(args) {
      DeliversAll(file, args);
    }
    NothingDeliveredBreaks(BatchLine(file, args));
    if NoBreaks(file) && !NamesCleanly(file) && AllNoBreaks(args) {
      FirstPass(file, args);
      var rest := SpacedMarks(Mapped(Escape, Mapped(QuotedForWindows, args)));
      SpaceParts();
      NameOfDead(file, rest);
      CharsLength((Dead(file) + rest)[..NameLength(Dead(file) + rest)]);
    }
  }

  /** A word in small letters, each written small or large. */
  predicate InAnyCase(s: string, word: string) {
    && |s| == |word|
    && forall i | 0 <= i < |s| :: s[i] == word[i] || ('a' <= word[i] <= 'z' && s[i] as int == word[i] as int - 32)
  }

  ghost predicate NamesBatchFile(file: string) {
    exists stem, ending :: file == stem + ending && (InAnyCase(ending, ".cmd") || InAnyCase(ending, ".bat"))
  }

  lemma LowerIs(s: string, word: string)
    requires forall i | 0 <= i < |word| :: !('A' <= word[i] <= 'Z')
    ensures Lower(s) == word <==> InAnyCase(s, word)
  {
    if Lower(s) == word {
      forall i | 0 <= i < |s| ensures s[i] == word[i] || ('a' <= word[i] <= 'z' && s[i] as int == word[i] as int - 32) {
        assert Lower(s)[i] == word[i];
      }
    }
  }

  lemma BatchFilesByName(file: string)
    ensures IsBatchFile(file) <==> NamesBatchFile(file)
  {
    if |file| >= 4 {
      var stem, ending := file[..|file| - 4], file[|file| - 4..];
      assert file == stem + ending;
      LowerIs(ending, ".cmd");
      LowerIs(ending, ".bat");
      hide Lower;
      if NamesBatchFile(file) {
        var stem', ending' :| file == stem' + ending' && (InAnyCase(ending', ".cmd") || InAnyCase(ending', ".bat"));
        assert |ending'| == 4 && ending' == ending;
      }
    }
  }

  /** The plan for a batch file, its ending in whatever case, hands cmd.exe, wherever that is, that line inside
      one pair of quotes, which `/s /c` takes off again; every other file, and on any other system every
      file, is started directly. */
  lemma PlanCarriesLine(file: string, args: seq<string>, windows: bool, comspec: Option<string>)
    ensures var plan := SpawnPlanFor(file, args, windows, comspec);
      && (plan.verbatim <==> windows && NamesBatchFile(file))
      && if plan.verbatim then
           && |plan.args| == 4 && plan.args[..3] == ["/d", "/s", "/c"]
           && |plan.args[3]| >= 2 && Unwrapped(plan.args[3]) == BatchLine(file, args)
           && (comspec == Some(plan.file) || (comspec.None? && plan.file == "cmd.exe"))
         else plan.file == file && plan.args == args
  {
    BatchFilesByName(file);
    hide NamesBatchFile;
    hide IsBatchFile;
    var line := BatchLine(file, args);
    assert ("\"" + line + "\"")[1..|line| + 1] == line;
  }
}
