/** What stands for a call's arguments wherever they may not go themselves: the digest of a text written
    with their top-level names, sorted, as the list of names to write. That list holds at every depth. */
module ArgsDigest {
  import opened Basics
  import opened Json
  import opened JsonDoc

  /** A call's arguments, by name. */
  type Input = map<string, Json>

  /** JavaScript's own part: the order it sorts names in, which numbers it has and how it writes one, and
      the hash. */
  datatype Runtime = Runtime(
    sorted: set<string> -> seq<string>,
    isNumber: real -> bool,
    numeral: real -> string,
    hash: string -> string)

  /** Sorting keeps exactly the names there are, and no two numbers are written alike. */
  ghost predicate Standard(rt: Runtime) {
    && (forall names, name :: name in rt.sorted(names) <==> name in names)
    && (forall n :: rt.numeral(n) != "" && forall c | c in rt.numeral(n) :: IsNumberChar(c))
    && (forall m, n | rt.isNumber(m) && rt.isNumber(n) && rt.numeral(m) == rt.numeral(n) :: m == n)
  }

  /** A value every number of which is one of JavaScript's. */
  ghost predicate Valued(rt: Runtime, v: Json) {
    match v
    case Number(n) => rt.isNumber(n)
    case List(items) => forall i | 0 <= i < |items| :: Valued(rt, items[i])
    case Object(fields) => forall name | name in fields :: Valued(rt, fields[name])
    case _ => true
  }

  // ---------------------------------------------------------------- what is written

  /** A value as `JSON.stringify` writes it, given the names to write. */
  function Written(rt: Runtime, names: seq<string>, v: Json): string
    decreases v, 2, 0
  {
    match v
    case Null => "null"
    case Bool(b) => if b then "true" else "false"
    case Number(n) => rt.numeral(n)
    case Text(text) => Quoted(text)
    case List(items) => "[" + WrittenItems(rt, names, items, "")
    case Object(_) => "{" + WrittenFields(rt, names, names, v, "")
  }

  function WrittenItems(rt: Runtime, names: seq<string>, items: seq<Json>, comma: string): string
    decreases items, 0, 0
  {
    if items == [] then "]"
    else comma + (Written(rt, names, items[0]) + WrittenItems(rt, names, items[1..], ","))
  }

  /** An object's members under the names still to come, in their order. */
  function WrittenFields(rt: Runtime, names: seq<string>, left: seq<string>, v: Json, comma: string): string
    requires v.Object?
    decreases v, 1, |left|
  {
    if left == [] then "}"
    else
      var more := WrittenFields(rt, names, left[1..], v, if left[0] in v.fields then "," else comma);
      if left[0] in v.fields
      then comma + (Quoted(left[0]) + (":" + (Written(rt, names, v.fields[left[0]]) + more)))
      else more
  }

  function ArgsText(rt: Runtime, input: Input): string {
    Written(rt, rt.sorted(input.Keys), Object(input))
  }

  function DigestOf(rt: Runtime, input: Input): string {
    rt.hash(ArgsText(rt, input))
  }

  // ---------------------------------------------------------------- what is left of it

  function Elements(names: seq<string>): (r: set<string>)
    ensures forall name :: name in r <==> name in names
  {
    set name | name in names
  }

  /** A value without the members, at any depth, that are under none of some names. */
  function Kept(names: set<string>, v: Json): Json {
    match v
    case List(items) => List(seq(|items|, i requires 0 <= i < |items| => Kept(names, items[i])))
    case Object(fields) => Object(map name | name in fields && name in names :: Kept(names, fields[name]))
    case _ => v
  }

  /** Arguments without the members below the top that are under none of the names at the top. */
  function KeptOf(input: Input): (r: Input)
    ensures r.Keys == input.Keys
  {
    map name | name in input :: Kept(input.Keys, input[name])
  }

  /** Of an object, what is kept under some of the names. */
  function KeptUnder(names: set<string>, left: seq<string>, v: Json): map<string, Json>
    requires v.Object?
  {
    map name | name in v.fields && name in left :: Kept(names, v.fields[name])
  }

  // ---------------------------------------------------------------- no two written alike

  lemma SameHead<T>(a: seq<T>, x: seq<T>, b: seq<T>, y: seq<T>)
    requires a + x == b + y && |a| == |b|
    ensures a == b && x == y
  {
    assert (a + x)[..|a|] == a && (b + y)[..|b|] == b;
    assert (a + x)[|a|..] == x && (b + y)[|b|..] == y;
  }

  /** What a quoted text starts can be only that text. */
  lemma QuotedApart(a: string, x: string, b: string, y: string)
    requires Quoted(a) + x == Quoted(b) + y
    ensures a == b && x == y
  {
    QuotedReads(a, x);
    QuotedReads(b, y);
  }

  lemma QuotedReads(text: string, rest: string)
    ensures ReadString((Quoted(text) + rest)[1..], "") == Got(text, rest)
  {
    hide ReadString;
    hide Spread;
    hide CanonicalSpelling;
    hide Letters;
    hide Legal;
    QuotedIsPrinted(text);
    QuotedSame(text);
    ReadSpelling(CanonicalSpelling(text), rest, "");
    assert (Quoted(text) + rest)[1..] == QuotedChars(text) + ("\"" + rest);
    assert "" + text == text;
  }

  lemma NumeralApart(rt: Runtime, m: real, x: string, n: real, y: string)
    requires Standard(rt) && rt.isNumber(m) && rt.isNumber(n)
    requires Clear(x) && Clear(y) && rt.numeral(m) + x == rt.numeral(n) + y
    ensures m == n && x == y
  {
    NumberRunOf(rt.numeral(m), x);
    NumberRunOf(rt.numeral(n), y);
    SameHead(rt.numeral(m), x, rt.numeral(n), y);
  }

  /** The character a value starts with tells its kind. */
  lemma FirstChar(rt: Runtime, names: seq<string>, v: Json)
    requires Standard(rt)
    ensures var s := Written(rt, names, v);
      && s != ""
      && match v
         case Null => s[0] == 'n'
         case Bool(b) => s[0] == if b then 't' else 'f'
         case Number(_) => IsNumberChar(s[0])
         case Text(_) => s[0] == '"'
         case List(_) => s[0] == '['
         case Object(_) => s[0] == '{'
  {
    hide WrittenItems;
    hide WrittenFields;
  }

  /** Two values written alike, with what follows each, keep the same, and the same follows. */
  lemma {:induction false} WrittenApart(
    rt: Runtime, names: seq<string>, v: Json, x: string, names': seq<string>, v': Json, x': string)
    requires Standard(rt) && Valued(rt, v) && Valued(rt, v') && Clear(x) && Clear(x')
    requires Written(rt, names, v) + x == Written(rt, names', v') + x'
    ensures Kept(Elements(names), v) == Kept(Elements(names'), v') && x == x'
    decreases v, 2, 0
  {
    var s, s' := Written(rt, names, v), Written(rt, names', v');
    FirstChar(rt, names, v);
    FirstChar(rt, names', v');
    assert (s + x)[0] == s[0] && (s' + x')[0] == s'[0];
    hide Quoted;
    hide WrittenItems;
    hide WrittenFields;
    hide Standard;
    match v {
      case Number(n) => NumeralApart(rt, n, x, v'.n, x');
      case Text(text) => QuotedApart(text, x, v'.text, x');
      case List(items) =>
        var more, more' := WrittenItems(rt, names, items, ""), WrittenItems(rt, names', v'.items, "");
        Associate("[", more, x);
        Associate("[", more', x');
        SameHead("[", more + x, "[", more' + x');
        ItemsApart(rt, names, items, x, names', v'.items, x', "");
      case Object(_) =>
        var more, more' := WrittenFields(rt, names, names, v, ""), WrittenFields(rt, names', names', v', "");
        Associate("{", more, x);
        Associate("{", more', x');
        SameHead("{", more + x, "{", more' + x');
        FieldsApart(rt, names, names, v, x, names', names', v', x', "");
        WholeKept(names, v);
        WholeKept(names', v');
      case _ => SameHead(s, x, s', x');
    }
  }

  lemma WholeKept(names: seq<string>, v: Json)
    requires v.Object?
    ensures Kept(Elements(names), v) == Object(KeptUnder(Elements(names), names, v))
  {
  }

  lemma {:induction false} ItemsApart(
    rt: Runtime, names: seq<string>, items: seq<Json>, x: string, names': seq<string>, items': seq<Json>, x': string,
    comma: string)
    requires Standard(rt) && Clear(x) && Clear(x') && comma in ["", ","]
    requires forall i | 0 <= i < |items| :: Valued(rt, items[i])
    requires forall i | 0 <= i < |items'| :: Valued(rt, items'[i])
    requires WrittenItems(rt, names, items, comma) + x == WrittenItems(rt, names', items', comma) + x'
    ensures |items| == |items'| && x == x'
    ensures forall i | 0 <= i < |items| :: Kept(Elements(names), items[i]) == Kept(Elements(names'), items'[i])
    decreases items, 0, 0
  {
    hide Written;
    hide Kept;
    hide Clear;
    if items != [] && items' != [] {
      hide WrittenItems;
      ItemFirst(rt, names, items, comma, x);
      ItemFirst(rt, names', items', comma, x');
      var rest, rest' := WrittenItems(rt, names, items[1..], ",") + x, WrittenItems(rt, names', items'[1..], ",") + x';
      var one, one' := Written(rt, names, items[0]), Written(rt, names', items'[0]);
      SameHead(comma, one + rest, comma, one' + rest');
      ItemsClear(rt, names, items[1..], x);
      ItemsClear(rt, names', items'[1..], x');
      WrittenApart(rt, names, items[0], rest, names', items'[0], rest');
      ItemsApart(rt, names, items[1..], x, names', items'[1..], x', ",");
      forall i | 0 <= i < |items| ensures Kept(Elements(names), items[i]) == Kept(Elements(names'), items'[i]) {
        assert i > 0 ==> items[i] == items[1..][i - 1] && items'[i] == items'[1..][i - 1];
      }
    } else if items != [] {
      ItemStart(rt, names, items, comma, x);
    } else if items' != [] {
      ItemStart(rt, names', items', comma, x');
    } else {
      SameHead("]", x, "]", x');
    }
  }

  lemma ItemFirst(rt: Runtime, names: seq<string>, items: seq<Json>, comma: string, x: string)
    requires items != []
    ensures WrittenItems(rt, names, items, comma) + x
      == comma + (Written(rt, names, items[0]) + (WrittenItems(rt, names, items[1..], ",") + x))
  {
    hide Written;
    var one, more := Written(rt, names, items[0]), WrittenItems(rt, names, items[1..], ",");
    Associate(comma, one + more, x);
    Associate(one, more, x);
  }

  lemma ItemStart(rt: Runtime, names: seq<string>, items: seq<Json>, comma: string, x: string)
    requires Standard(rt) && items != [] && comma in ["", ","]
    ensures var s := WrittenItems(rt, names, items, comma) + x; s != "" && s[0] != ']'
  {
    FirstChar(rt, names, items[0]);
    hide Written;
  }

  lemma ItemsClear(rt: Runtime, names: seq<string>, items: seq<Json>, x: string)
    ensures Clear(WrittenItems(rt, names, items, ",") + x)
  {
  }

  /** A name that is not an object's own is passed over. */
  lemma PassedOver(rt: Runtime, names: seq<string>, left: seq<string>, v: Json, comma: string)
    requires v.Object? && left != [] && left[0] !in v.fields
    ensures WrittenFields(rt, names, left, v, comma) == WrittenFields(rt, names, left[1..], v, comma)
    ensures KeptUnder(Elements(names), left, v) == KeptUnder(Elements(names), left[1..], v)
  {
  }

  lemma KeptFirst(names: set<string>, left: seq<string>, v: Json)
    requires v.Object? && left != [] && left[0] in v.fields
    ensures KeptUnder(names, left, v) == KeptUnder(names, left[1..], v)[left[0] := Kept(names, v.fields[left[0]])]
  {
    hide Kept;
  }

  /** A member written first, and the rest. */
  lemma MemberFirst(rt: Runtime, names: seq<string>, left: seq<string>, v: Json, comma: string, x: string)
    requires v.Object? && left != [] && left[0] in v.fields
    ensures WrittenFields(rt, names, left, v, comma) + x == comma + (Quoted(left[0]) + (":"
      + (Written(rt, names, v.fields[left[0]]) + (WrittenFields(rt, names, left[1..], v, ",") + x))))
  {
    hide Quoted;
    hide Written;
    var one, more := Written(rt, names, v.fields[left[0]]), WrittenFields(rt, names, left[1..], v, ",");
    Associate(comma, Quoted(left[0]) + (":" + (one + more)), x);
    Associate(Quoted(left[0]), ":" + (one + more), x);
    Associate(":", one + more, x);
    Associate(one, more, x);
  }

  lemma {:induction false} FieldsClear(rt: Runtime, names: seq<string>, left: seq<string>, v: Json, x: string)
    requires v.Object?
    ensures Clear(WrittenFields(rt, names, left, v, ",") + x)
    decreases |left|
  {
    if left != [] && left[0] !in v.fields {
      FieldsClear(rt, names, left[1..], v, x);
    } else if left != [] {
      MemberFirst(rt, names, left, v, ",", x);
    }
  }

  lemma {:induction false} FieldsApart(
    rt: Runtime, names: seq<string>, left: seq<string>, v: Json, x: string,
    names': seq<string>, left': seq<string>, v': Json, x': string, comma: string)
    requires Standard(rt) && Clear(x) && Clear(x') && comma in ["", ","]
    requires v.Object? && v'.Object? && Valued(rt, v) && Valued(rt, v')
    requires WrittenFields(rt, names, left, v, comma) + x == WrittenFields(rt, names', left', v', comma) + x'
    ensures KeptUnder(Elements(names), left, v) == KeptUnder(Elements(names'), left', v') && x == x'
    decreases v, 1, |left| + |left'|
  {
    hide WrittenFields;
    hide KeptUnder;
    hide Valued;
    if left != [] && left[0] !in v.fields {
      PassedOver(rt, names, left, v, comma);
      FieldsApart(rt, names, left[1..], v, x, names', left', v', x', comma);
    } else if left' != [] && left'[0] !in v'.fields {
      PassedOver(rt, names', left', v', comma);
      FieldsApart(rt, names, left, v, x, names', left'[1..], v', x', comma);
    } else if left == [] || left' == [] {
      EndsApart(rt, names, left, v, x, names', left', v', x', comma);
    } else {
      MembersApart(rt, names, left, v, x, names', left', v', x', comma);
    }
  }

  lemma MemberStart(rt: Runtime, names: seq<string>, left: seq<string>, v: Json, comma: string, x: string)
    requires v.Object? && left != [] && left[0] in v.fields && comma in ["", ","]
    ensures var s := WrittenFields(rt, names, left, v, comma) + x; s != "" && s[0] != '}'
  {
    MemberFirst(rt, names, left, v, comma, x);
  }

  /** An object that ends goes with one that ends. */
  lemma EndsApart(
    rt: Runtime, names: seq<string>, left: seq<string>, v: Json, x: string,
    names': seq<string>, left': seq<string>, v': Json, x': string, comma: string)
    requires comma in ["", ","] && v.Object? && v'.Object? && (left == [] || left' == [])
    requires (left != [] ==> left[0] in v.fields) && (left' != [] ==> left'[0] in v'.fields)
    requires WrittenFields(rt, names, left, v, comma) + x == WrittenFields(rt, names', left', v', comma) + x'
    ensures left == left' == [] && x == x'
    ensures KeptUnder(Elements(names), left, v) == KeptUnder(Elements(names'), left', v') == map[]
  {
    hide Written;
    if left != [] {
      MemberStart(rt, names, left, v, comma, x);
    } else if left' != [] {
      MemberStart(rt, names', left', v', comma, x');
    } else {
      SameHead("}", x, "}", x');
    }
  }

  lemma {:induction false} MembersApart(
    rt: Runtime, names: seq<string>, left: seq<string>, v: Json, x: string,
    names': seq<string>, left': seq<string>, v': Json, x': string, comma: string)
    requires Standard(rt) && Clear(x) && Clear(x') && comma in ["", ","]
    requires v.Object? && v'.Object? && Valued(rt, v) && Valued(rt, v')
    requires left != [] && left[0] in v.fields && left' != [] && left'[0] in v'.fields
    requires WrittenFields(rt, names, left, v, comma) + x == WrittenFields(rt, names', left', v', comma) + x'
    ensures KeptUnder(Elements(names), left, v) == KeptUnder(Elements(names'), left', v') && x == x'
    decreases v, 1, |left| + |left'|, 0
  {
    assert Valued(rt, v.fields[left[0]]) && Valued(rt, v'.fields[left'[0]]);
    hide *;
    MemberFirst(rt, names, left, v, comma, x);
    MemberFirst(rt, names', left', v', comma, x');
    var one, one' := Written(rt, names, v.fields[left[0]]), Written(rt, names', v'.fields[left'[0]]);
    var rest := WrittenFields(rt, names, left[1..], v, ",") + x;
    var rest' := WrittenFields(rt, names', left'[1..], v', ",") + x';
    SameHead(comma, Quoted(left[0]) + (":" + (one + rest)), comma, Quoted(left'[0]) + (":" + (one' + rest')));
    QuotedApart(left[0], ":" + (one + rest), left'[0], ":" + (one' + rest'));
    SameHead(":", one + rest, ":", one' + rest');
    FieldsClear(rt, names, left[1..], v, x);
    FieldsClear(rt, names', left'[1..], v', x');
    WrittenApart(rt, names, v.fields[left[0]], rest, names', v'.fields[left'[0]], rest');
    FieldsApart(rt, names, left[1..], v, x, names', left'[1..], v', x', ",");
    KeptFirst(Elements(names), left, v);
    KeptFirst(Elements(names'), left', v');
  }

  // ---------------------------------------------------------------- exactly when two are

  /** What is left out of a value is not written in the first place. */
  lemma {:induction false} WrittenKept(rt: Runtime, names: seq<string>, v: Json)
    ensures Written(rt, names, Kept(Elements(names), v)) == Written(rt, names, v)
    decreases v, 2, 0
  {
    match v
    case List(items) =>
      ItemsKept(rt, names, items, Kept(Elements(names), v).items, "");
    case Object(_) =>
      FieldsKept(rt, names, names, v, Kept(Elements(names), v), "");
    case _ =>
  }

  lemma {:induction false} ItemsKept(rt: Runtime, names: seq<string>, items: seq<Json>, kept: seq<Json>, comma: string)
    requires |items| == |kept| && forall i | 0 <= i < |items| :: kept[i] == Kept(Elements(names), items[i])
    ensures WrittenItems(rt, names, kept, comma) == WrittenItems(rt, names, items, comma)
    decreases items, 0, 0
  {
    hide Kept;
    hide Written;
    if items != [] {
      WrittenKept(rt, names, items[0]);
      ItemsKept(rt, names, items[1..], kept[1..], ",");
    }
  }

  lemma {:induction false} FieldsKept(
    rt: Runtime, names: seq<string>, left: seq<string>, v: Json, kept: Json, comma: string)
    requires v.Object? && kept == Kept(Elements(names), v) && forall name | name in left :: name in names
    ensures WrittenFields(rt, names, left, kept, comma) == WrittenFields(rt, names, left, v, comma)
    decreases v, 1, |left|
  {
    hide Written;
    if left != [] {
      assert left[0] in names;
      if left[0] in v.fields {
        WrittenKept(rt, names, v.fields[left[0]]);
      }
      FieldsKept(rt, names, left[1..], v, kept, if left[0] in v.fields then "," else comma);
    }
  }

  lemma TopKept(rt: Runtime, input: Input)
    requires Standard(rt)
    ensures Elements(rt.sorted(input.Keys)) == input.Keys
    ensures Kept(input.Keys, Object(input)) == Object(KeptOf(input))
  {
  }

  lemma KeptAlike(rt: Runtime, a: Input, b: Input)
    requires Standard(rt) && KeptOf(a) == KeptOf(b)
    ensures ArgsText(rt, a) == ArgsText(rt, b)
  {
    TopKept(rt, a);
    TopKept(rt, b);
    assert a.Keys == KeptOf(a).Keys == KeptOf(b).Keys == b.Keys;
    hide *;
    TextIs(rt, a);
    TextIs(rt, b);
    WrittenKept(rt, rt.sorted(a.Keys), Object(a));
    WrittenKept(rt, rt.sorted(b.Keys), Object(b));
  }

  /** Two calls' arguments have one text exactly where they have the same names at the top and are the same
      once the members below that are under no name at the top are left out. */
  lemma SameText(rt: Runtime, a: Input, b: Input)
    requires Standard(rt) && Valued(rt, Object(a)) && Valued(rt, Object(b))
    ensures ArgsText(rt, a) == ArgsText(rt, b) <==> KeptOf(a) == KeptOf(b)
  {
    if KeptOf(a) == KeptOf(b) {
      KeptAlike(rt, a, b);
    } else if ArgsText(rt, a) == ArgsText(rt, b) {
      TopKept(rt, a);
      TopKept(rt, b);
      hide *;
      TextIs(rt, a);
      TextIs(rt, b);
      WrittenApart(rt, rt.sorted(a.Keys), Object(a), "", rt.sorted(b.Keys), Object(b), "");
    }
  }

  lemma TextIs(rt: Runtime, input: Input)
    ensures ArgsText(rt, input) == Written(rt, rt.sorted(input.Keys), Object(input))
    ensures ArgsText(rt, input) + "" == ArgsText(rt, input) && Clear("")
  {
    hide Written;
  }

  /** Whether every member of a value, at any depth, is under one of some names. */
  ghost predicate Within(names: set<string>, v: Json) {
    match v
    case List(items) => forall i | 0 <= i < |items| :: Within(names, items[i])
    case Object(fields) => forall name | name in fields :: name in names && Within(names, fields[name])
    case _ => true
  }

  lemma {:induction false} WithinKept(names: set<string>, v: Json)
    ensures Kept(names, v) == v <==> Within(names, v)
  {
    match v
    case List(items) =>
      forall i | 0 <= i < |items| ensures Kept(names, items[i]) == items[i] <==> Within(names, items[i]) {
        WithinKept(names, items[i]);
      }
      var kept := Kept(names, v).items;
      assert kept == items <==> forall i | 0 <= i < |items| :: kept[i] == items[i];
    case Object(fields) =>
      forall name | name in fields ensures Kept(names, fields[name]) == fields[name] <==> Within(names, fields[name]) {
        WithinKept(names, fields[name]);
      }
      var kept := Kept(names, v).fields;
      assert kept == fields <==> forall name | name in fields :: name in names && kept[name] == fields[name];
    case _ =>
  }

  /** So arguments that use no name below the top that is not at the top have a text of their own. */
  lemma OwnText(rt: Runtime, a: Input, b: Input)
    requires Standard(rt) && Valued(rt, Object(a)) && Valued(rt, Object(b))
    requires Within(a.Keys, Object(a)) && Within(b.Keys, Object(b))
    ensures ArgsText(rt, a) == ArgsText(rt, b) <==> a == b
  {
    SameText(rt, a, b);
    WithinKept(a.Keys, Object(a));
    WithinKept(b.Keys, Object(b));
    TopKept(rt, a);
    TopKept(rt, b);
  }

  /** Others can share one: whatever two arguments hold under `a` and there under `b`. */
  lemma NestedLost(rt: Runtime, v: Json, v': Json)
    requires Standard(rt)
    ensures ArgsText(rt, map["a" := Object(map["b" := v])]) == ArgsText(rt, map["a" := Object(map["b" := v'])])
  {
    OnlyTop(v);
    OnlyTop(v');
    hide *;
    KeptAlike(rt, map["a" := Object(map["b" := v])], map["a" := Object(map["b" := v'])]);
  }

  lemma OnlyTop(v: Json)
    ensures KeptOf(map["a" := Object(map["b" := v])]) == map["a" := Object(map[])]
  {
    var input: Input := map["a" := Object(map["b" := v])];
    assert input.Keys == {"a"} && "b" !in {"a"};
    assert Kept({"a"}, input["a"]) == Object(map[]);
  }

  // ---------------------------------------------------------------- there is such a runtime

  ghost function Listed(names: set<string>): (r: seq<string>)
    ensures forall name :: name in r <==> name in names
  {
    if names == {} then []
    else
      var name :| name in names;
      [name] + Listed(names - {name})
  }

  lemma StandardMet() returns (rt: Runtime)
    ensures Standard(rt)
  {
    rt := Runtime(
      names => Listed(names), (n: real) => n == n.Floor as real, (n: real) => Decimal(n.Floor), text => text);
    forall m, n | rt.isNumber(m) && rt.isNumber(n) && rt.numeral(m) == rt.numeral(n) ensures m == n {
      DecimalExact(m.Floor);
      DecimalExact(n.Floor);
    }
  }
}
