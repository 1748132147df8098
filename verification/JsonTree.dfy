/** Every value tree the wrapper's protocol can carry has a text, and its text reads back as it. */
module JsonTree {
  import opened Basics
  import opened Json
  import opened JsonDoc

  /** A tree of null, booleans, whole numbers in range, texts, lists and objects, at most `depth` deep. */
  ghost predicate Tree(v: Json, depth: nat) {
    match v
    case Number(n) => n == n.Floor as real && -9_000_000_000_000_000 < n.Floor < 9_000_000_000_000_000
    case List(items) => depth > 0 && forall x | x in items :: Tree(x, depth - 1)
    case Object(fields) => depth > 0 && forall k | k in fields :: Tree(fields[k], depth - 1)
    case Null => true
    case Bool(_) => true
    case Text(_) => true
  }

  function Unpadded(d: Doc): Padded {
    Padded("", d, "")
  }

  lemma {:induction false} Written(v: Json, depth: nat) returns (d: Doc)
    requires Tree(v, depth)
    ensures LegalDoc(d) && Meaning(d) == v && Height(d) <= depth
    decreases depth, 0
  {
    match v {
      case Null => d := NullDoc;
      case Bool(b) => d := BoolDoc(b);
      case Number(n) => d := NumberDoc(n.Floor);
      case Text(text) =>
        QuotedIsPrinted(text);
        d := TextDoc(CanonicalSpelling(text));
      case List(items) =>
        if items == [] {
          d := EmptyList("");
        } else {
          var written := WrittenItems(items, depth - 1);
          d := ListDoc(written);
        }
      case Object(fields) =>
        if fields == map[] {
          d := EmptyObject("");
        } else {
          var written := WrittenMembers(fields, depth - 1);
          d := ObjectDoc(written);
          assert map[] + fields == fields;
        }
    }
  }

  lemma {:induction false} WrittenItems(items: seq<Json>, depth: nat) returns (written: Items)
    requires items != [] && forall x | x in items :: Tree(x, depth)
    ensures LegalItems(written) && ItemsOf(written) == items && ItemsHeight(written) <= depth
    decreases depth, |items|
  {
    var first := Written(items[0], depth);
    if |items| == 1 {
      written := LastItem(Unpadded(first));
    } else {
      var more := WrittenItems(items[1..], depth);
      written := NextItem(Unpadded(first), more);
    }
  }

  lemma {:induction false} WrittenMembers(fields: map<string, Json>, depth: nat) returns (written: Members)
    requires fields != map[] && forall k | k in fields :: Tree(fields[k], depth)
    ensures LegalMembers(written) && MembersHeight(written) <= depth
    ensures forall known :: FieldsOf(written, known) == known + fields
    decreases depth, |fields|
  {
    var key :| key in fields;
    var value := Written(fields[key], depth);
    QuotedIsPrinted(key);
    var name := Name("", CanonicalSpelling(key), "");
    var rest := fields - {key};
    if rest == map[] {
      written := LastMember(name, Unpadded(value));
      forall known ensures FieldsOf(written, known) == known + fields {
        OneField(known, fields, key);
      }
    } else {
      var more := WrittenMembers(rest, depth);
      written := NextMember(name, Unpadded(value), more);
      forall known ensures FieldsOf(written, known) == known + fields {
        OneField(known, fields, key);
      }
    }
  }

  lemma OneField(known: map<string, Json>, fields: map<string, Json>, key: string)
    requires key in fields
    ensures known[key := fields[key]] + (fields - {key}) == known + fields
    ensures fields - {key} == map[] ==> known[key := fields[key]] == known + fields
  {
    if fields - {key} == map[] {
      assert forall k | k in fields :: k == key || k in fields - {key};
    }
  }

  /** Every tree at most sixteen deep has a text, and reading it gives the tree. */
  lemma EveryTreeReads(numberOf: NumberReader, v: Json) returns (text: Padded)
    requires WholeNumbers(numberOf) && Tree(v, MOST_DEPTH)
    ensures LegalPadded(text) && Parsed(numberOf, PrintPadded(text)) == Some(v)
  {
    var d := Written(v, MOST_DEPTH);
    text := Unpadded(d);
    RoundTrip(numberOf, text);
  }
}
