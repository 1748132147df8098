/** The depth a JSON text may have: the reader takes exactly the legal texts at most sixteen deep. A
    deeper one is read up to its first value that is too deep, and refused there. */
module JsonDepth {
  import opened Basics
  import opened Json
  import opened JsonDoc

  lemma {:induction false} DeepValue(numberOf: NumberReader, d: Doc, before: string, rest: string, depth: nat)
    requires WholeNumbers(numberOf) && LegalDoc(d) && Blank(before) && Clear(rest)
    requires depth <= MOST_DEPTH < depth + Height(d)
    ensures ReadValue(numberOf, before + (Print(d) + rest), depth).Refused?
    decreases d, 1
  {
    SkipToValue(before, d, rest);
    DeepBare(numberOf, d, rest, depth);
    SkipTwice(before + (Print(d) + rest));
  }

  lemma {:induction false} DeepBare(numberOf: NumberReader, d: Doc, rest: string, depth: nat)
    requires WholeNumbers(numberOf) && LegalDoc(d) && Clear(rest)
    requires depth <= MOST_DEPTH < depth + Height(d)
    ensures ReadValue(numberOf, Print(d) + rest, depth).Refused?
    decreases d, 0
  {
    if depth == MOST_DEPTH {
      OpensTooDeep(numberOf, d, rest);
    } else if d.ListDoc? {
      DeepList(numberOf, d.items, rest, depth + 1);
      OpenItems(numberOf, d.items, rest, depth);
    } else {
      DeepObject(numberOf, d.members, rest, depth + 1);
      OpenMembers(numberOf, d.members, rest, depth);
    }
  }

  lemma OpensTooDeep(numberOf: NumberReader, d: Doc, rest: string)
    requires Height(d) > 0
    ensures ReadValue(numberOf, Print(d) + rest, MOST_DEPTH).Refused?
  {
    assert Print(d)[0] == '[' || Print(d)[0] == '{';
    hide Print;
  }

  lemma {:induction false} DeepPadded(numberOf: NumberReader, p: Padded, rest: string, depth: nat)
    requires WholeNumbers(numberOf) && LegalPadded(p) && Clear(rest)
    requires depth <= MOST_DEPTH < depth + Height(p.doc)
    ensures ReadValue(numberOf, PrintPadded(p) + rest, depth).Refused?
    decreases p, 2
  {
    ClearAfter(p.after, rest);
    DeepValue(numberOf, p.doc, p.before, p.after + rest, depth);
    assert PrintPadded(p) + rest == p.before + (Print(p.doc) + (p.after + rest));
  }

  lemma {:induction false} DeepItems(
    numberOf: NumberReader, items: Items, rest: string, depth: nat, known: seq<Json>)
    requires WholeNumbers(numberOf) && LegalItems(items)
    requires depth <= MOST_DEPTH < depth + ItemsHeight(items)
    ensures ReadItems(numberOf, PrintItems(items) + rest, depth, known).Refused?
    decreases items, 3
  {
    var p := items.item;
    if items.LastItem? {
      DeepPadded(numberOf, p, "]" + rest, depth);
      Associate(PrintPadded(p), "]", rest);
    } else {
      var more := items.more;
      var tail := "," + (PrintItems(more) + rest);
      Regroup(PrintPadded(p), ",", PrintItems(more), rest);
      if depth + Height(p.doc) > MOST_DEPTH {
        DeepPadded(numberOf, p, tail, depth);
      } else {
        RoundTripPadded(numberOf, p, tail, depth);
        SkipToMark(p.after, ',', PrintItems(more) + rest);
        DeepItems(numberOf, more, rest, depth, known + [Meaning(p.doc)]);
      }
    }
  }

  lemma {:induction false} DeepList(numberOf: NumberReader, items: Items, rest: string, depth: nat)
    requires WholeNumbers(numberOf) && LegalItems(items)
    requires depth <= MOST_DEPTH < depth + ItemsHeight(items)
    ensures ReadList(numberOf, PrintItems(items) + rest, depth).Refused?
    decreases items, 4
  {
    var s := PrintItems(items) + rest;
    DeepItems(numberOf, items, rest, depth, []);
    StartOfPadded(items.item, s);
    SkipFirst(numberOf, s, depth);
  }

  lemma {:induction false} DeepMember(
    numberOf: NumberReader, name: Name, p: Padded, rest: string, depth: nat)
    requires WholeNumbers(numberOf) && LegalName(name) && LegalPadded(p) && Clear(rest)
    requires depth <= MOST_DEPTH < depth + Height(p.doc)
    ensures ReadMember(numberOf, PrintName(name) + (PrintPadded(p) + rest), depth).Refused?
    decreases p, 3
  {
    ReadPrintedName(name, PrintPadded(p) + rest);
    DeepPadded(numberOf, p, rest, depth);
  }

  lemma {:induction false} DeepFields(
    numberOf: NumberReader, members: Members, rest: string, depth: nat, known: map<string, Json>)
    requires WholeNumbers(numberOf) && LegalMembers(members)
    requires depth <= MOST_DEPTH < depth + MembersHeight(members)
    ensures ReadFields(numberOf, PrintMembers(members) + rest, depth, known).Refused?
    decreases members, 4
  {
    var name, p := members.name, members.item;
    if members.LastMember? {
      DeepMember(numberOf, name, p, "}" + rest, depth);
      Regroup(PrintName(name), PrintPadded(p), "}", rest);
    } else {
      var more := members.more;
      var tail := PrintMembers(more) + rest;
      Regroup(PrintName(name), PrintPadded(p), "," + PrintMembers(more), rest);
      Associate(",", PrintMembers(more), rest);
      if depth + Height(p.doc) > MOST_DEPTH {
        DeepMember(numberOf, name, p, "," + tail, depth);
      } else {
        RoundTripMember(numberOf, name, p, "," + tail, depth);
        SkipToMark(p.after, ',', tail);
        DeepFields(numberOf, more, rest, depth, known[Letters(name.spelling) := Meaning(p.doc)]);
      }
    }
  }

  lemma {:induction false} DeepObject(numberOf: NumberReader, members: Members, rest: string, depth: nat)
    requires WholeNumbers(numberOf) && LegalMembers(members)
    requires depth <= MOST_DEPTH < depth + MembersHeight(members)
    ensures ReadObject(numberOf, PrintMembers(members) + rest, depth).Refused?
    decreases members, 5
  {
    var s := PrintMembers(members) + rest;
    DeepFields(numberOf, members, rest, depth, map[]);
    var tail := s[|PrintName(members.name)|..];
    assert s == PrintName(members.name) + tail;
    ReadPrintedName(members.name, tail);
    SkipFirst(numberOf, s, depth);
    assert ReadMember(numberOf, SkipSpace(s), depth) == ReadMember(numberOf, s, depth);
  }

  /** A legal text reads as what it means exactly where it is at most sixteen deep, and does not read at
      all where it is deeper. */
  lemma DepthExactly(numberOf: NumberReader, text: Padded)
    requires WholeNumbers(numberOf) && LegalPadded(text)
    ensures Parsed(numberOf, PrintPadded(text))
      == if Height(text.doc) <= MOST_DEPTH then Some(Meaning(text.doc)) else None
  {
    if Height(text.doc) <= MOST_DEPTH {
      RoundTrip(numberOf, text);
    } else {
      DeepPadded(numberOf, text, "", 0);
      assert PrintPadded(text) + "" == PrintPadded(text);
    }
  }
}
