/** The lines the native wrapper and the daemon exchange: one request, one answer. */
module Protocol {
  import opened Basics
  import opened Json
  import opened JsonDoc

  const VERSION := 1
  const PLAN_ID := 1
  const RAN_ID := 3

  /** A variable of the environment, its name and its value. */
  type Pair = (string, string)

  // ---------------------------------------------------------------- the request

  function RequestHead(): string {
    "{\"id\":" + Digits(PLAN_ID) + ",\"method\":" + "\"intercept\"" + ",\"fast\":" + Digits(VERSION) + ",\"argv\":["
  }

  function QuotedPair(p: Pair): string {
    Quoted(p.0) + (":" + Quoted(p.1))
  }

  /** Pieces with a comma between each two. */
  function Joined<A>(piece: A -> string, items: seq<A>): string {
    if items == [] then ""
    else if |items| == 1 then piece(items[0])
    else piece(items[0]) + ("," + Joined(piece, items[1..]))
  }

  function ArgvText(argv: seq<string>): string {
    Joined(Quoted, argv)
  }

  function EnvText(env: seq<Pair>): string {
    Joined(QuotedPair, env)
  }

  function EnvTail(env: seq<Pair>): string {
    EnvText(env) + "}}\n"
  }

  function CwdTail(cwd: string, ppid: nat, env: seq<Pair>): string {
    Quoted(cwd) + (",\"ppid\":" + (Digits(ppid) + (",\"env\":{" + EnvTail(env))))
  }

  function LineText(argv: seq<string>, env: seq<Pair>, cwd: string, ppid: nat): string {
    RequestHead() + (ArgvText(argv) + ("],\"cwd\":" + CwdTail(cwd, ppid, env)))
  }

  lemma {:induction false} JoinedStep<A>(piece: A -> string, items: seq<A>, i: nat)
    requires 0 < i < |items|
    ensures Joined(piece, items[..i]) + ("," + piece(items[i])) == Joined(piece, items[..i + 1])
  {
    var rest := items[1..];
    assert items[..i + 1][1..] == rest[..i] && items[..i][1..] == rest[..i - 1];
    if i == 1 {
      assert rest[..1] == [rest[0]];
    } else {
      JoinedStep(piece, rest, i - 1);
      Associate(piece(items[0]), "," + Joined(piece, rest[..i - 1]), "," + piece(items[i]));
      Associate(",", Joined(piece, rest[..i - 1]), "," + piece(items[i]));
    }
  }

  method AppendArgv(argv: seq<string>, before: string) returns (out: string)
    ensures out == before + ArgvText(argv)
  {
    out := before;
    for index := 0 to |argv|
      invariant out == before + ArgvText(argv[..index])
    {
      if index > 0 {
        Associate(before, ArgvText(argv[..index]), "," + Quoted(argv[index]));
        JoinedStep(Quoted, argv, index);
        Associate(out, ",", Quoted(argv[index]));
        out := out + ",";
      }
      out := Quote(argv[index], out);
    }
    assert argv[..|argv|] == argv;
  }

  method AppendEnv(env: seq<Pair>, before: string) returns (out: string)
    ensures out == before + EnvText(env)
  {
    out := before;
    for index := 0 to |env|
      invariant out == before + EnvText(env[..index])
    {
      if index > 0 {
        Associate(before, EnvText(env[..index]), "," + QuotedPair(env[index]));
        JoinedStep(QuotedPair, env, index);
        Associate(out, ",", QuotedPair(env[index]));
        out := out + ",";
      }
      ghost var start := out;
      out := Quote(env[index].0, out);
      out := out + ":";
      out := Quote(env[index].1, out);
      Associate(start + Quoted(env[index].0), ":", Quoted(env[index].1));
      Associate(start, Quoted(env[index].0), ":" + Quoted(env[index].1));
    }
    assert env[..|env|] == env;
  }

  method InterceptLine(argv: seq<string>, env: seq<Pair>, cwd: string, ppid: nat) returns (out: string)
    ensures out == LineText(argv, env, cwd, ppid)
  {
    out := AppendArgv(argv, RequestHead());
    Associate(RequestHead(), ArgvText(argv), "],\"cwd\":" + CwdTail(cwd, ppid, env));
    Associate(out, "],\"cwd\":", CwdTail(cwd, ppid, env));
    out := out + "],\"cwd\":";
    ghost var a := ",\"ppid\":" + (Digits(ppid) + (",\"env\":{" + EnvTail(env)));
    Associate(out, Quoted(cwd), a);
    out := Quote(cwd, out);
    Associate(out, ",\"ppid\":", Digits(ppid) + (",\"env\":{" + EnvTail(env)));
    out := out + ",\"ppid\":";
    Associate(out, Digits(ppid), ",\"env\":{" + EnvTail(env));
    out := out + Digits(ppid);
    Associate(out, ",\"env\":{", EnvTail(env));
    out := out + ",\"env\":{";
    Associate(out, EnvText(env), "}}\n");
    out := AppendEnv(env, out);
    out := out + "}}\n";
  }

  // ---------------------------------------------------------------- the request as a document

  function Word(text: string): Doc {
    TextDoc(CanonicalSpelling(text))
  }

  function Bare(d: Doc): Padded {
    Padded("", d, "")
  }

  function Key(name: string): Name {
    Name("", CanonicalSpelling(name), "")
  }

  function WordItems(args: seq<string>): Items
    requires args != []
  {
    if |args| == 1 then LastItem(Bare(Word(args[0])))
    else NextItem(Bare(Word(args[0])), WordItems(args[1..]))
  }

  function ArgvDoc(argv: seq<string>): Doc {
    if argv == [] then EmptyList("") else ListDoc(WordItems(argv))
  }

  function PairMembers(env: seq<Pair>): Members
    requires env != []
  {
    if |env| == 1 then LastMember(Key(env[0].0), Bare(Word(env[0].1)))
    else NextMember(Key(env[0].0), Bare(Word(env[0].1)), PairMembers(env[1..]))
  }

  function EnvDoc(env: seq<Pair>): Doc {
    if env == [] then EmptyObject("") else ObjectDoc(PairMembers(env))
  }

  function EnvMember(env: seq<Pair>): Members {
    LastMember(Key("env"), Bare(EnvDoc(env)))
  }

  function CwdMembers(cwd: string, ppid: nat, env: seq<Pair>): Members {
    NextMember(Key("cwd"), Bare(Word(cwd)), NextMember(Key("ppid"), Bare(NumberDoc(ppid)), EnvMember(env)))
  }

  function ArgvMembers(argv: seq<string>, env: seq<Pair>, cwd: string, ppid: nat): Members {
    NextMember(Key("argv"), Bare(ArgvDoc(argv)), CwdMembers(cwd, ppid, env))
  }

  function RequestMembers(argv: seq<string>, env: seq<Pair>, cwd: string, ppid: nat): Members {
    NextMember(Key("id"), Bare(NumberDoc(PLAN_ID)),
      NextMember(Key("method"), Bare(Word("intercept")),
        NextMember(Key("fast"), Bare(NumberDoc(VERSION)), ArgvMembers(argv, env, cwd, ppid))))
  }

  function RequestDoc(argv: seq<string>, env: seq<Pair>, cwd: string, ppid: nat): Padded {
    Padded("", ObjectDoc(RequestMembers(argv, env, cwd, ppid)), "\n")
  }

  lemma PrintBare(d: Doc)
    ensures PrintPadded(Bare(d)) == Print(d)
  {
    assert Print(d) + "" == Print(d) && "" + Print(d) == Print(d);
  }

  lemma PrintKey(name: string)
    ensures PrintName(Key(name)) == Quoted(name) + ":"
  {
    QuotedIsPrinted(name);
    var letters := Spread(PrintSpelled, CanonicalSpelling(name));
    assert PrintName(Key(name)) == "\"" + (letters + ("\"" + ":"));
    assert Quoted(name) + ":" == "\"" + (letters + ("\"" + ":"));
  }

  lemma {:induction false} PrintWordItems(args: seq<string>)
    requires args != []
    ensures PrintItems(WordItems(args)) == ArgvText(args) + "]"
  {
    QuotedIsPrinted(args[0]);
    PrintBare(Word(args[0]));
    if |args| > 1 {
      PrintWordItems(args[1..]);
      Associate(Quoted(args[0]), "," + ArgvText(args[1..]), "]");
      Associate(",", ArgvText(args[1..]), "]");
    }
  }

  lemma {:induction false} PrintPairMembers(env: seq<Pair>)
    requires env != []
    ensures PrintMembers(PairMembers(env)) == EnvText(env) + "}"
  {
    var (name, value) := env[0];
    QuotedIsPrinted(value);
    PrintBare(Word(value));
    PrintKey(name);
    Associate(Quoted(name), ":", Quoted(value));
    var more := if |env| == 1 then "}" else "," + (EnvText(env[1..]) + "}");
    Associate(Quoted(name) + ":", Quoted(value), more);
    if |env| > 1 {
      PrintPairMembers(env[1..]);
      Associate(QuotedPair(env[0]), "," + EnvText(env[1..]), "}");
      Associate(",", EnvText(env[1..]), "}");
    }
  }

  lemma {:induction false} PlainQuoted(text: string)
    requires forall i | 0 <= i < |text| :: text[i] as int >= 0x20 && text[i] != '"' && text[i] != '\\'
    ensures QuotedChars(text) == text
  {
    if text != "" {
      PlainQuoted(text[1..]);
    }
  }

  /** A member's name as it is written. */
  function KeyText(name: string): string {
    Quoted(name) + ":"
  }

  /** One member in front of the others, as text. */
  lemma PrintField(name: string, d: Doc, more: Members, tail: string)
    ensures PrintMembers(NextMember(Key(name), Bare(d), more)) + tail
         == KeyText(name) + (Print(d) + ("," + (PrintMembers(more) + tail)))
  {
    PrintKey(name);
    PrintBare(d);
    Regroup(KeyText(name), Print(d), "," + PrintMembers(more), tail);
    Associate(",", PrintMembers(more), tail);
  }

  /** A name with nothing to escape in it, as the source's literals spell it. */
  lemma KeyLiteral(name: string)
    requires forall i | 0 <= i < |name| :: name[i] as int >= 0x20 && name[i] != '"' && name[i] != '\\'
    ensures KeyText(name) == "\"" + name + "\":"
  {
    PlainQuoted(name);
  }

  lemma CwdLiterals()
    ensures "," + KeyText("ppid") == ",\"ppid\":"
    ensures "," + KeyText("env") + "{" == ",\"env\":{"
  {
    KeyLiteral("ppid");
    KeyLiteral("env");
  }

  lemma ArgvLiterals()
    ensures KeyText("argv") + "[" == "\"argv\":["
    ensures "]" + "," + KeyText("cwd") == "],\"cwd\":"
  {
    KeyLiteral("argv");
    KeyLiteral("cwd");
  }

  lemma HeadLiterals()
    ensures "{" + KeyText("id") == "{\"id\":"
    ensures "," + KeyText("fast") == ",\"fast\":"
    ensures "," + "\"argv\":[" == ",\"argv\":["
  {
    KeyLiteral("id");
    KeyLiteral("fast");
  }

  lemma MethodLiterals()
    ensures "," + KeyText("method") == ",\"method\":"
    ensures Quoted("intercept") == "\"intercept\""
  {
    MethodKey();
    MethodWord();
  }

  lemma MethodWord()
    ensures Quoted("intercept") == "\"intercept\""
  {
    hide QuotedChars;
    hide QuotedChar;
    PlainQuoted("intercept");
  }

  lemma MethodKey()
    ensures "," + KeyText("method") == ",\"method\":"
  {
    KeyLiteral("method");
  }

  lemma PrintEnv(env: seq<Pair>)
    ensures Print(EnvDoc(env)) == "{" + (EnvText(env) + "}")
  {
    if env != [] {
      PrintPairMembers(env);
    }
  }

  lemma PrintArgv(argv: seq<string>)
    ensures Print(ArgvDoc(argv)) == "[" + (ArgvText(argv) + "]")
  {
    if argv != [] {
      PrintWordItems(argv);
    }
  }

  lemma EnvRegroup(text: string)
    ensures "{" + (text + "}") + ("}" + "\n") == "{" + (text + "}}\n")
  {
    Regroup("{", text, "}", "}" + "\n");
    assert "}" + ("}" + "\n") == "}}\n";
  }

  lemma PrintEnvMember(env: seq<Pair>)
    ensures PrintMembers(EnvMember(env)) + "\n" == KeyText("env") + ("{" + EnvTail(env))
  {
    PrintKey("env");
    PrintBare(EnvDoc(env));
    PrintEnv(env);
    Regroup(KeyText("env"), Print(EnvDoc(env)), "}", "\n");
    EnvRegroup(EnvText(env));
  }

  lemma PrintCwdMembers(cwd: string, ppid: nat, env: seq<Pair>)
    ensures PrintMembers(CwdMembers(cwd, ppid, env)) + "\n" == KeyText("cwd") + CwdTail(cwd, ppid, env)
  {
    PrintField("cwd", Word(cwd), NextMember(Key("ppid"), Bare(NumberDoc(ppid)), EnvMember(env)), "\n");
    QuotedIsPrinted(cwd);
    PrintField("ppid", NumberDoc(ppid), EnvMember(env), "\n");
    PrintEnvMember(env);
    CwdLiterals();
    var rest := EnvTail(env);
    Associate(",", KeyText("env"), "{" + rest);
    Associate("," + KeyText("env"), "{", rest);
    Associate(",", KeyText("ppid"), Digits(ppid) + (",\"env\":{" + rest));
  }

  lemma PrintArgvMembers(argv: seq<string>, env: seq<Pair>, cwd: string, ppid: nat)
    ensures PrintMembers(ArgvMembers(argv, env, cwd, ppid)) + "\n"
         == "\"argv\":[" + (ArgvText(argv) + ("],\"cwd\":" + CwdTail(cwd, ppid, env)))
  {
    PrintField("argv", ArgvDoc(argv), CwdMembers(cwd, ppid, env), "\n");
    PrintArgv(argv);
    PrintCwdMembers(cwd, ppid, env);
    ArgvLiterals();
    var text, tail := ArgvText(argv), CwdTail(cwd, ppid, env);
    var rest := "," + (KeyText("cwd") + tail);
    Regroup("[", text, "]", rest);
    Associate("]", ",", KeyText("cwd") + tail);
    Associate("]" + ",", KeyText("cwd"), tail);
    Associate(KeyText("argv"), "[", text + ("]" + rest));
  }

  lemma PrintFastMember(more: Members, tail: string)
    requires PrintMembers(more) + "\n" == "\"argv\":[" + tail
    ensures PrintMembers(NextMember(Key("fast"), Bare(NumberDoc(VERSION)), more)) + "\n"
         == KeyText("fast") + (Digits(VERSION) + (",\"argv\":[" + tail))
  {
    PrintField("fast", NumberDoc(VERSION), more, "\n");
    HeadLiterals();
    Associate(",", "\"argv\":[", tail);
  }

  lemma PrintMethodMember(more: Members, tail: string)
    requires PrintMembers(more) + "\n" == KeyText("fast") + tail
    ensures PrintMembers(NextMember(Key("method"), Bare(Word("intercept")), more)) + "\n"
         == KeyText("method") + ("\"intercept\"" + (",\"fast\":" + tail))
  {
    PrintField("method", Word("intercept"), more, "\n");
    QuotedIsPrinted("intercept");
    HeadLiterals();
    MethodLiterals();
    Associate(",", KeyText("fast"), tail);
  }

  lemma PrintIdMember(more: Members, tail: string)
    requires PrintMembers(more) + "\n" == KeyText("method") + tail
    ensures "{" + (PrintMembers(NextMember(Key("id"), Bare(NumberDoc(PLAN_ID)), more)) + "\n")
         == "{\"id\":" + (Digits(PLAN_ID) + (",\"method\":" + tail))
  {
    PrintField("id", NumberDoc(PLAN_ID), more, "\n");
    HeadLiterals();
    MethodLiterals();
    Associate(",", KeyText("method"), tail);
    Associate("{", KeyText("id"), Digits(PLAN_ID) + (",\"method\":" + tail));
  }

  lemma HeadRegroup(a: string, b: string, c: string, d: string, e: string, f: string, g: string, tail: string)
    ensures a + (b + (c + (d + (e + (f + (g + tail)))))) == (a + b + c + d + e + f + g) + tail
  {
    Associate(a, b, c + (d + (e + (f + (g + tail)))));
    Associate(a + b, c, d + (e + (f + (g + tail))));
    Associate(a + b + c, d, e + (f + (g + tail)));
    Associate(a + b + c + d, e, f + (g + tail));
    Associate(a + b + c + d + e, f, g + tail);
    Associate(a + b + c + d + e + f, g, tail);
  }

  lemma PrintRequestMembers(argv: seq<string>, env: seq<Pair>, cwd: string, ppid: nat, tail: string)
    requires PrintMembers(ArgvMembers(argv, env, cwd, ppid)) + "\n" == "\"argv\":[" + tail
    ensures "{" + (PrintMembers(RequestMembers(argv, env, cwd, ppid)) + "\n") == RequestHead() + tail
  {
    var last := ArgvMembers(argv, env, cwd, ppid);
    PrintFastMember(last, tail);
    var fast := NextMember(Key("fast"), Bare(NumberDoc(VERSION)), last);
    var fastTail := Digits(VERSION) + (",\"argv\":[" + tail);
    PrintMethodMember(fast, fastTail);
    var verb := NextMember(Key("method"), Bare(Word("intercept")), fast);
    PrintIdMember(verb, "\"intercept\"" + (",\"fast\":" + fastTail));
    HeadRegroup("{\"id\":", Digits(PLAN_ID), ",\"method\":", "\"intercept\"", ",\"fast\":", Digits(VERSION),
      ",\"argv\":[", tail);
  }

  lemma PrintDocument(members: Members, after: string)
    ensures PrintPadded(Padded("", ObjectDoc(members), after)) == "{" + (PrintMembers(members) + after)
  {
    var s := "{" + PrintMembers(members) + after;
    assert "" + s == s;
    Associate("{", PrintMembers(members), after);
  }

  /** The text the loops write is the request printed as a document. */
  lemma LineIsRequest(argv: seq<string>, env: seq<Pair>, cwd: string, ppid: nat)
    ensures PrintPadded(RequestDoc(argv, env, cwd, ppid)) == LineText(argv, env, cwd, ppid)
  {
    PrintArgvMembers(argv, env, cwd, ppid);
    PrintRequestMembers(argv, env, cwd, ppid, ArgvText(argv) + ("],\"cwd\":" + CwdTail(cwd, ppid, env)));
    PrintDocument(RequestMembers(argv, env, cwd, ppid), "\n");
  }

  // ---------------------------------------------------------------- the request read back

  function WordValues(args: seq<string>): seq<Json> {
    if args == [] then [] else [Text(args[0])] + WordValues(args[1..])
  }

  function EnvFields(env: seq<Pair>, known: map<string, Json>): map<string, Json> {
    if env == [] then known else EnvFields(env[1..], known[env[0].0 := Text(env[0].1)])
  }

  /** The request as the daemon has it once parsed. */
  function RequestFields(argv: seq<string>, env: seq<Pair>, cwd: string, ppid: nat): map<string, Json> {
    map["id" := Number(PLAN_ID as real)]["method" := Text("intercept")]["fast" := Number(VERSION as real)]
      ["argv" := List(WordValues(argv))]["cwd" := Text(cwd)]["ppid" := Number(ppid as real)]
      ["env" := Object(EnvFields(env, map[]))]
  }

  ghost predicate DistinctNames(env: seq<Pair>) {
    forall i, j | 0 <= i < j < |env| :: env[i].0 != env[j].0
  }

  /** With distinct names the fields are the environment: every variable under its own name
      with its own value, and no other name. */
  lemma {:induction false} EnvFieldsExact(env: seq<Pair>, known: map<string, Json>)
    requires DistinctNames(env) && forall i | 0 <= i < |env| :: env[i].0 !in known
    ensures forall i | 0 <= i < |env| ::
      env[i].0 in EnvFields(env, known) && EnvFields(env, known)[env[i].0] == Text(env[i].1)
    ensures forall name | name in known :: name in EnvFields(env, known) && EnvFields(env, known)[name] == known[name]
    ensures forall name | name in EnvFields(env, known) ::
      name in known || exists i | 0 <= i < |env| :: env[i].0 == name
  {
    if env != [] {
      var more := known[env[0].0 := Text(env[0].1)];
      forall i | 0 <= i < |env| - 1 ensures env[1..][i].0 !in more {
        assert env[1..][i] == env[i + 1];
      }
      EnvFieldsExact(env[1..], more);
      forall i | 0 <= i < |env|
        ensures env[i].0 in EnvFields(env, known) && EnvFields(env, known)[env[i].0] == Text(env[i].1)
      {
        if i == 0 {
          assert env[0].0 in more;
        } else {
          assert env[1..][i - 1] == env[i];
        }
      }
      forall name | name in EnvFields(env, known)
        ensures name in known || exists i | 0 <= i < |env| :: env[i].0 == name
      {
        if name !in more {
          var i :| 0 <= i < |env[1..]| && env[1..][i].0 == name;
          assert env[i + 1].0 == name;
        }
      }
    }
  }

  lemma {:induction false} MeaningOfWords(args: seq<string>)
    requires args != []
    ensures ItemsOf(WordItems(args)) == WordValues(args) && LegalItems(WordItems(args))
    ensures ItemsHeight(WordItems(args)) == 0
  {
    QuotedIsPrinted(args[0]);
    if |args| > 1 {
      MeaningOfWords(args[1..]);
    } else {
      assert WordValues(args[1..]) == [];
    }
  }

  lemma {:induction false} MeaningOfPairs(env: seq<Pair>, known: map<string, Json>)
    requires env != []
    ensures FieldsOf(PairMembers(env), known) == EnvFields(env, known) && LegalMembers(PairMembers(env))
    ensures MembersHeight(PairMembers(env)) == 0
  {
    QuotedIsPrinted(env[0].0);
    QuotedIsPrinted(env[0].1);
    if |env| > 1 {
      MeaningOfPairs(env[1..], known[env[0].0 := Text(env[0].1)]);
    }
  }

  lemma MeaningOfArgv(argv: seq<string>)
    ensures Meaning(ArgvDoc(argv)) == List(WordValues(argv)) && LegalDoc(ArgvDoc(argv)) && Height(ArgvDoc(argv)) <= 1
  {
    if argv != [] {
      MeaningOfWords(argv);
    }
  }

  lemma MeaningOfEnv(env: seq<Pair>)
    ensures Meaning(EnvDoc(env)) == Object(EnvFields(env, map[])) && LegalDoc(EnvDoc(env)) && Height(EnvDoc(env)) <= 1
  {
    if env != [] {
      MeaningOfPairs(env, map[]);
    }
  }

  lemma MeaningOfField(name: string, d: Doc, more: Members, known: map<string, Json>)
    requires LegalDoc(d) && Height(d) <= 1 && LegalMembers(more) && MembersHeight(more) <= 1
    ensures var m := NextMember(Key(name), Bare(d), more);
      && FieldsOf(m, known) == FieldsOf(more, known[name := Meaning(d)])
      && LegalMembers(m) && MembersHeight(m) <= 1
  {
    QuotedIsPrinted(name);
  }

  lemma MeaningOfCwdMembers(cwd: string, ppid: nat, env: seq<Pair>, known: map<string, Json>)
    requires ppid < 0x1_0000_0000
    ensures var m := CwdMembers(cwd, ppid, env);
      && FieldsOf(m, known)
         == known["cwd" := Text(cwd)]["ppid" := Number(ppid as real)]["env" := Object(EnvFields(env, map[]))]
      && LegalMembers(m) && MembersHeight(m) <= 1
  {
    MeaningOfEnv(env);
    QuotedIsPrinted("env");
    QuotedIsPrinted(cwd);
    var last := EnvMember(env);
    MeaningOfField("ppid", NumberDoc(ppid), last, known["cwd" := Text(cwd)]);
    MeaningOfField("cwd", Word(cwd), NextMember(Key("ppid"), Bare(NumberDoc(ppid)), last), known);
  }

  lemma MeaningOfRequest(argv: seq<string>, env: seq<Pair>, cwd: string, ppid: nat)
    requires ppid < 0x1_0000_0000
    ensures var m := RequestMembers(argv, env, cwd, ppid);
      FieldsOf(m, map[]) == RequestFields(argv, env, cwd, ppid) && LegalMembers(m) && MembersHeight(m) <= 1
  {
    var id := map["id" := Number(PLAN_ID as real)];
    var verb := id["method" := Text("intercept")];
    var fast := verb["fast" := Number(VERSION as real)];
    var cwdMembers := CwdMembers(cwd, ppid, env);
    MeaningOfCwdMembers(cwd, ppid, env, fast["argv" := List(WordValues(argv))]);
    MeaningOfArgv(argv);
    QuotedIsPrinted("intercept");
    var argvMembers := ArgvMembers(argv, env, cwd, ppid);
    MeaningOfField("argv", ArgvDoc(argv), cwdMembers, fast);
    var fastMembers := NextMember(Key("fast"), Bare(NumberDoc(VERSION)), argvMembers);
    MeaningOfField("fast", NumberDoc(VERSION), argvMembers, verb);
    var verbMembers := NextMember(Key("method"), Bare(Word("intercept")), fastMembers);
    MeaningOfField("method", Word("intercept"), fastMembers, id);
    MeaningOfField("id", NumberDoc(PLAN_ID), verbMembers, map[]);
    assert map[]["id" := Number(PLAN_ID as real)] == id;
  }

  /** Parsing the request line gives back exactly what was put into it. */
  lemma RequestRoundTrip(numberOf: NumberReader, argv: seq<string>, env: seq<Pair>, cwd: string, ppid: nat)
    requires WholeNumbers(numberOf) && ppid < 0x1_0000_0000
    ensures Parsed(numberOf, LineText(argv, env, cwd, ppid)) == Some(Object(RequestFields(argv, env, cwd, ppid)))
  {
    LineIsRequest(argv, env, cwd, ppid);
    MeaningOfRequest(argv, env, cwd, ppid);
    DocumentRoundTrip(numberOf, RequestMembers(argv, env, cwd, ppid));
  }

  lemma DocumentRoundTrip(numberOf: NumberReader, members: Members)
    requires WholeNumbers(numberOf) && LegalMembers(members) && MembersHeight(members) <= 1
    ensures Parsed(numberOf, PrintPadded(Padded("", ObjectDoc(members), "\n")))
         == Some(Object(FieldsOf(members, map[])))
  {
    RoundTrip(numberOf, Padded("", ObjectDoc(members), "\n"));
  }

  // ---------------------------------------------------------------- the wrapper's other lines

  const ACTED := "intercept-acted"
  const RAN := "intercept-ran"

  /** Said once a plan is acted on. */
  function ActedLine(): string {
    "{\"id\":" + "2" + ",\"method\":" + ("\"" + ACTED + "\"") + "}" + "\n"
  }

  /** Said once the command has ended. */
  function RanLine(code: int): string {
    "{\"id\":" + Decimal(RAN_ID) + ",\"method\":" + ("\"" + RAN + "\"") + ",\"exitCode\":" + Decimal(code) + "}" + "\n"
  }

  lemma PrintLast(name: string, d: Doc, tail: string)
    ensures PrintMembers(LastMember(Key(name), Bare(d))) + tail == KeyText(name) + (Print(d) + ("}" + tail))
  {
    PrintKey(name);
    PrintBare(d);
    Regroup(KeyText(name), Print(d), "}", tail);
  }

  lemma MeaningOfLast(name: string, d: Doc, known: map<string, Json>)
    requires LegalDoc(d) && Height(d) <= 1
    ensures var m := LastMember(Key(name), Bare(d));
      FieldsOf(m, known) == known[name := Meaning(d)] && LegalMembers(m) && MembersHeight(m) <= 1
  {
    QuotedIsPrinted(name);
  }

  function ActedFields(): map<string, Json> {
    map["id" := Number(2.0)]["method" := Text(ACTED)]
  }

  function RanFields(code: int): map<string, Json> {
    map["id" := Number(RAN_ID as real)]["method" := Text(RAN)]["exitCode" := Number(code as real)]
  }

  /** A word with nothing to escape in it, as it is written. */
  lemma WordLiteral(text: string)
    requires forall i | 0 <= i < |text| :: text[i] as int >= 0x20 && text[i] != '"' && text[i] != '\\'
    ensures Print(Word(text)) == "\"" + text + "\""
  {
    QuotedIsPrinted(text);
    PlainQuoted(text);
  }

  lemma ActedWords()
    ensures Print(Word(ACTED)) == "\"" + ACTED + "\"" && Print(Word(RAN)) == "\"" + RAN + "\""
  {
    hide Print;
    hide Word;
    WordLiteral(ACTED);
    WordLiteral(RAN);
  }

  lemma AfterComma(name: string)
    requires forall i | 0 <= i < |name| :: name[i] as int >= 0x20 && name[i] != '"' && name[i] != '\\'
    ensures "," + KeyText(name) == ",\"" + name + "\":"
  {
    KeyLiteral(name);
    assert "," + ("\"" + name + "\":") == ",\"" + name + "\":";
  }

  lemma RanLiterals()
    ensures "{" + KeyText("id") == "{\"id\":"
    ensures "," + KeyText("method") == ",\"method\":"
    ensures "," + KeyText("exitCode") == ",\"exitCode\":"
  {
    hide *;
    KeyLiteral("id");
    AfterComma("method");
    AfterComma("exitCode");
  }

  lemma ActedPrinted()
    ensures var members := NextMember(Key("id"), Bare(NumberDoc(2)), LastMember(Key("method"), Bare(Word(ACTED))));
      PrintPadded(Padded("", ObjectDoc(members), "\n")) == ActedLine()
  {
    var last := LastMember(Key("method"), Bare(Word(ACTED)));
    var word := "\"" + ACTED + "\"";
    hide *;
    ActedWords();
    RanLiterals();
    TwoIs();
    PrintLast("method", Word(ACTED), "\n");
    PrintField("id", NumberDoc(2), last, "\n");
    PrintDocument(NextMember(Key("id"), Bare(NumberDoc(2)), last), "\n");
    PrintNumber(2);
    LineUp("{", KeyText("id"), "2", ",", KeyText("method"), word, "}", "\n");
    ActedIs();
  }

  lemma TwoIs()
    ensures Decimal(2) == "2"
  {
  }

  lemma PrintNumber(n: int)
    ensures Print(NumberDoc(n)) == Decimal(n)
  {
  }

  lemma ActedIs()
    ensures ActedLine() == "{\"id\":" + "2" + ",\"method\":" + ("\"" + ACTED + "\"") + "}" + "\n"
  {
  }

  lemma LineUp(a: string, b: string, c: string, d: string, e: string, f: string, g: string, h: string)
    ensures a + (b + (c + (d + (e + (f + (g + h)))))) == (a + b) + c + (d + e) + f + g + h
  {
    HeadRegroup(a, b, c, d, e, f, g, h);
    Associate(a + b + c, d, e);
  }

  /** The line that says a plan was acted on reads as that. */
  lemma ActedReads(numberOf: NumberReader)
    requires WholeNumbers(numberOf)
    ensures Parsed(numberOf, ActedLine()) == Some(Object(ActedFields()))
  {
    var word := Word(ACTED);
    var last := LastMember(Key("method"), Bare(word));
    ActedPrinted();
    QuotedIsPrinted(ACTED);
    MeaningOfLast("method", word, map[]["id" := Number(2.0)]);
    MeaningOfField("id", NumberDoc(2), last, map[]);
    hide Print;
    hide Parsed;
    hide ActedLine;
    DocumentRoundTrip(numberOf, NextMember(Key("id"), Bare(NumberDoc(2)), last));
  }

  /** The line that says how a command ended reads as that. */
  lemma RanReads(numberOf: NumberReader, code: int)
    requires WholeNumbers(numberOf) && -0x8000_0000 <= code < 0x8000_0000
    ensures Parsed(numberOf, RanLine(code)) == Some(Object(RanFields(code)))
  {
    var word := Word(RAN);
    var last := LastMember(Key("exitCode"), Bare(NumberDoc(code)));
    var verb := NextMember(Key("method"), Bare(word), last);
    RanPrinted(code);
    MeaningOfLast("exitCode", NumberDoc(code), map[]["id" := Number(RAN_ID as real)]["method" := Text(RAN)]);
    QuotedIsPrinted(RAN);
    MeaningOfField("method", word, last, map[]["id" := Number(RAN_ID as real)]);
    MeaningOfField("id", NumberDoc(RAN_ID), verb, map[]);
    hide Print;
    hide Parsed;
    hide RanLine;
    DocumentRoundTrip(numberOf, NextMember(Key("id"), Bare(NumberDoc(RAN_ID)), verb));
  }

  lemma RanPrinted(code: int)
    ensures var members := NextMember(Key("id"), Bare(NumberDoc(RAN_ID)),
        NextMember(Key("method"), Bare(Word(RAN)), LastMember(Key("exitCode"), Bare(NumberDoc(code)))));
      PrintPadded(Padded("", ObjectDoc(members), "\n")) == RanLine(code)
  {
    var last := LastMember(Key("exitCode"), Bare(NumberDoc(code)));
    var verb := NextMember(Key("method"), Bare(Word(RAN)), last);
    var word := "\"" + RAN + "\"";
    hide *;
    ActedWords();
    RanLiterals();
    PrintLast("exitCode", NumberDoc(code), "\n");
    PrintField("method", Word(RAN), last, "\n");
    PrintField("id", NumberDoc(RAN_ID), verb, "\n");
    PrintDocument(NextMember(Key("id"), Bare(NumberDoc(RAN_ID)), verb), "\n");
    PrintNumber(RAN_ID);
    PrintNumber(code);
    RanIs(code);
    var id, ended := Decimal(RAN_ID), KeyText("exitCode") + (Decimal(code) + ("}" + "\n"));
    HeadRegroup("{", KeyText("id"), id, ",", KeyText("method"), word, ",", ended);
    Associate("{" + KeyText("id") + id, ",", KeyText("method"));
    var head := ("{" + KeyText("id")) + id + ("," + KeyText("method")) + word;
    RanTail(head, ",", KeyText("exitCode"), Decimal(code), "}", "\n");
  }

  lemma RanTail(head: string, a: string, b: string, c: string, d: string, e: string)
    ensures head + a + (b + (c + (d + e))) == head + (a + b) + c + d + e
  {
    Associate(head, a, b);
    Associate(head + a, b, c + (d + e));
    Associate(head + a + b, c, d + e);
    Associate(head + a + b + c, d, e);
  }

  lemma RanIs(code: int)
    ensures RanLine(code) == "{\"id\":" + Decimal(RAN_ID) + ",\"method\":" + ("\"" + RAN + "\"")
      + ",\"exitCode\":" + Decimal(code) + "}" + "\n"
  {
  }

  // ---------------------------------------------------------------- one line

  /** A text whose only line break is its last character. */
  ghost predicate OneLine(s: string) {
    |s| > 0 && s[|s| - 1] == '\n' && forall i | 0 <= i < |s| - 1 :: s[i] != '\n'
  }

  ghost predicate NoBreak(s: string) {
    forall i | 0 <= i < |s| :: s[i] != '\n'
  }

  lemma NoBreakConcat(a: string, b: string)
    requires NoBreak(a)
    ensures NoBreak(b) ==> NoBreak(a + b)
    ensures OneLine(b) ==> OneLine(a + b)
  {
  }

  lemma {:induction false} QuotedCharsNoBreak(text: string)
    ensures NoBreak(QuotedChars(text))
  {
    if text != "" {
      QuotedCharsNoBreak(text[1..]);
      assert NoBreak(QuotedChar(text[0]));
      NoBreakConcat(QuotedChar(text[0]), QuotedChars(text[1..]));
    }
  }

  lemma QuotedNoBreak(text: string)
    ensures NoBreak(Quoted(text))
  {
    QuotedCharsNoBreak(text);
  }

  lemma {:induction false} JoinedNoBreak<A>(piece: A -> string, items: seq<A>)
    requires forall a | a in items :: NoBreak(piece(a))
    ensures NoBreak(Joined(piece, items))
  {
    if items != [] {
      assert items[0] in items;
      if |items| > 1 {
        JoinedNoBreak(piece, items[1..]);
        NoBreakConcat(",", Joined(piece, items[1..]));
        NoBreakConcat(piece(items[0]), "," + Joined(piece, items[1..]));
      }
    }
  }

  lemma DigitsNoBreak(n: nat)
    ensures NoBreak(Digits(n))
  {
    forall i | 0 <= i < |Digits(n)| ensures Digits(n)[i] != '\n' {
      assert Digits(n)[i] in Digits(n);
    }
  }

  lemma CwdTailOneLine(cwd: string, ppid: nat, env: seq<Pair>)
    ensures OneLine(CwdTail(cwd, ppid, env))
  {
    forall p | p in env ensures NoBreak(QuotedPair(p)) {
      QuotedNoBreak(p.0);
      QuotedNoBreak(p.1);
      NoBreakConcat(":", Quoted(p.1));
      NoBreakConcat(Quoted(p.0), ":" + Quoted(p.1));
    }
    JoinedNoBreak(QuotedPair, env);
    NoBreakConcat(EnvText(env), "}}\n");
    NoBreakConcat(",\"env\":{", EnvTail(env));
    DigitsNoBreak(ppid);
    NoBreakConcat(Digits(ppid), ",\"env\":{" + EnvTail(env));
    NoBreakConcat(",\"ppid\":", Digits(ppid) + (",\"env\":{" + EnvTail(env)));
    QuotedNoBreak(cwd);
    NoBreakConcat(Quoted(cwd), ",\"ppid\":" + (Digits(ppid) + (",\"env\":{" + EnvTail(env))));
  }

  /** The daemon reads line by line, and the whole request is one line whatever is in it. */
  lemma RequestIsOneLine(argv: seq<string>, env: seq<Pair>, cwd: string, ppid: nat)
    ensures OneLine(LineText(argv, env, cwd, ppid))
  {
    CwdTailOneLine(cwd, ppid, env);
    NoBreakConcat("],\"cwd\":", CwdTail(cwd, ppid, env));
    forall a | a in argv ensures NoBreak(Quoted(a)) {
      QuotedNoBreak(a);
    }
    JoinedNoBreak(Quoted, argv);
    NoBreakConcat(ArgvText(argv), "],\"cwd\":" + CwdTail(cwd, ppid, env));
    assert Digits(1) == "1";
    NoBreakConcat(RequestHead(), ArgvText(argv) + ("],\"cwd\":" + CwdTail(cwd, ppid, env)));
  }

  // ---------------------------------------------------------------- the answer

  datatype Plan =
    | Node
    | Pass(file: string, path: string)
    | Run(file: string, path: string, notes: seq<string>)
    | Refuse(notes: seq<string>, exitCode: int)

  /** Every item as text, or None where one of them is something else. */
  function Texts(items: seq<Json>): Option<seq<string>> {
    if items == [] then Some([])
    else match (items[0].AsText(), Texts(items[1..]))
      case (Some(text), Some(more)) => Some([text] + more)
      case _ => None
  }

  /** An answer's notes: an answer may leave them out, and may not make them anything but texts. */
  function NotesOf(value: Json): Option<seq<string>> {
    match value.Field("notes")
    case None => Some([])
    case Some(List(items)) => Texts(items)
    case Some(_) => None
  }

  function IntegerField(value: Json, name: string): Option<int> {
    match value.Field(name)
    case None => None
    case Some(field) => field.Integer()
  }

  function TextField(value: Json, name: string): Option<string> {
    match value.Field(name)
    case None => None
    case Some(field) => field.AsText()
  }

  /** The plan in an answer, and `Node` wherever any part of the answer is not as it should be. */
  function PlanOfValue(value: Json): Plan {
    if IntegerField(value, "id") != Some(PLAN_ID)
      || value.Field("ok") != Some(Bool(true))
      || IntegerField(value, "fast") != Some(VERSION)
    then Node
    else
      var (file, path) := (TextField(value, "real"), TextField(value, "path"));
      match (TextField(value, "plan"), NotesOf(value))
      case (Some(kind), notes) =>
        if kind == "pass" then
          (if file.Some? && path.Some? then Pass(file.value, path.value) else Node)
        else if kind == "run" && notes.Some? then
          (if file.Some? && path.Some? then Run(file.value, path.value, notes.value) else Node)
        else if kind == "refuse" && notes.Some? then
          match IntegerField(value, "exitCode")
          case Some(code) => if 1 <= code <= 255 then Refuse(notes.value, code) else Node
          case None => Node
        else Node
      case _ => Node
  }

  function PlanOf(numberOf: NumberReader, line: string): Plan {
    match Parsed(numberOf, line)
    case None => Node
    case Some(value) => PlanOfValue(value)
  }

  /** What the daemon answers for a plan, field by field. */
  function AnswerFields(plan: Plan): map<string, Json> {
    var head := map["id" := Number(PLAN_ID as real), "ok" := Bool(true), "fast" := Number(VERSION as real)];
    match plan
    case Node => head["plan" := Text("node")]
    case Pass(file, path) => head["plan" := Text("pass")]["real" := Text(file)]["path" := Text(path)]
    case Run(file, path, notes) =>
      head["plan" := Text("run")]["real" := Text(file)]["path" := Text(path)]["notes" := List(WordValues(notes))]
    case Refuse(notes, exitCode) =>
      head["plan" := Text("refuse")]["notes" := List(WordValues(notes))]["exitCode" := Number(exitCode as real)]
  }

  lemma {:induction false} TextsOfWords(notes: seq<string>)
    ensures Texts(WordValues(notes)) == Some(notes)
  {
    if notes != [] {
      TextsOfWords(notes[1..]);
      var values := WordValues(notes);
      assert values[0] == Text(notes[0]) && values[1..] == WordValues(notes[1..]);
      assert [notes[0]] + notes[1..] == notes;
    }
  }

  lemma AnswerHead(plan: Plan)
    ensures var value := Object(AnswerFields(plan));
      && IntegerField(value, "id") == Some(PLAN_ID)
      && value.Field("ok") == Some(Bool(true))
      && IntegerField(value, "fast") == Some(VERSION)
  {
    var m := AnswerFields(plan);
    assert m["id"] == Number(1.0) && m["fast"] == Number(1.0);
  }

  lemma ReadRefusal(notes: seq<string>, exitCode: int)
    requires -0x8000_0000 <= exitCode < 0x8000_0000
    ensures PlanOfValue(Object(AnswerFields(Refuse(notes, exitCode))))
         == if 1 <= exitCode <= 255 then Refuse(notes, exitCode) else Node
  {
    var value := Object(AnswerFields(Refuse(notes, exitCode)));
    AnswerHead(Refuse(notes, exitCode));
    TextsOfWords(notes);
    assert (exitCode as real).Floor == exitCode;
    assert TextField(value, "plan") == Some("refuse") && NotesOf(value) == Some(notes);
    assert IntegerField(value, "exitCode") == Some(exitCode);
  }

  lemma ReadRun(file: string, path: string, notes: seq<string>)
    ensures PlanOfValue(Object(AnswerFields(Run(file, path, notes)))) == Run(file, path, notes)
  {
    var value := Object(AnswerFields(Run(file, path, notes)));
    AnswerHead(Run(file, path, notes));
    TextsOfWords(notes);
    assert TextField(value, "plan") == Some("run") && NotesOf(value) == Some(notes);
    assert TextField(value, "real") == Some(file) && TextField(value, "path") == Some(path);
  }

  lemma ReadPass(file: string, path: string)
    ensures PlanOfValue(Object(AnswerFields(Pass(file, path)))) == Pass(file, path)
  {
    var value := Object(AnswerFields(Pass(file, path)));
    AnswerHead(Pass(file, path));
    assert TextField(value, "plan") == Some("pass");
    assert TextField(value, "real") == Some(file) && TextField(value, "path") == Some(path);
  }

  lemma ReadNode()
    ensures PlanOfValue(Object(AnswerFields(Node))) == Node
  {
    assert TextField(Object(AnswerFields(Node)), "plan") == Some("node");
  }

  /** However the daemon spells its answer, the wrapper acts on the plan the daemon made. A
      refusal survives exactly when its exit code is one a process can end with. */
  lemma AnswerRoundTrip(numberOf: NumberReader, plan: Plan, text: Padded)
    requires WholeNumbers(numberOf) && LegalPadded(text) && Height(text.doc) <= MOST_DEPTH
    requires Meaning(text.doc) == Object(AnswerFields(plan))
    requires plan.Refuse? ==> -0x8000_0000 <= plan.exitCode < 0x8000_0000
    ensures PlanOf(numberOf, PrintPadded(text)) == plan <==> (plan.Refuse? ==> 1 <= plan.exitCode <= 255)
  {
    RoundTrip(numberOf, text);
    match plan
    case Node => ReadNode();
    case Pass(file, path) => ReadPass(file, path);
    case Run(file, path, notes) => ReadRun(file, path, notes);
    case Refuse(notes, exitCode) => ReadRefusal(notes, exitCode);
  }

  /** An answer that holds just what a plan needs. */
  ghost predicate HeldIn(value: Json, plan: Plan) {
    match plan
    case Pass(file, path) =>
      TextField(value, "plan") == Some("pass") && TextField(value, "real") == Some(file)
        && TextField(value, "path") == Some(path)
    case Run(file, path, notes) =>
      TextField(value, "plan") == Some("run") && TextField(value, "real") == Some(file)
        && TextField(value, "path") == Some(path)
      && NotesOf(value) == Some(notes)
    case Refuse(notes, exitCode) =>
      TextField(value, "plan") == Some("refuse") && NotesOf(value) == Some(notes)
      && IntegerField(value, "exitCode") == Some(exitCode) && 1 <= exitCode <= 255
    case Node => false
  }

  /** Any plan but Node rests on an answer to this request, at this version, that says all is well, and
      holds what the answer holds. */
  lemma PlanNeedsVersion(numberOf: NumberReader, line: string)
    requires PlanOf(numberOf, line) != Node
    ensures Parsed(numberOf, line).Some?
    ensures var value := Parsed(numberOf, line).value;
      && IntegerField(value, "id") == Some(PLAN_ID)
      && IntegerField(value, "fast") == Some(VERSION)
      && value.Field("ok") == Some(Bool(true))
      && HeldIn(value, PlanOf(numberOf, line))
  {
    hide Parsed;
    hide IntegerField;
    hide TextField;
    hide NotesOf;
  }
}
