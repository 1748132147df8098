/** Lines as they are typed: options, options with a value after them, and plain words. What is read of such
    a line is its plain words, in order, whatever is between them. */
module ShellWords {
  import opened Basics
  import opened ShellAction
  import opened ShellClaims

  /** An option by itself, one with its value in the word after it, or a plain word. */
  datatype Part = Flag(word: string) | Valued(option: string, value: string) | Word(word: string)

  predicate Dashed(word: string) {
    word != "" && word[0] == '-'
  }

  /** A part as it may be typed where some options take values. A value may be any word at all. */
  predicate Typed(part: Part, options: set<string>) {
    match part
    case Flag(word) => Dashed(word) && word !in options
    case Valued(option, _) => option in options
    case Word(word) => !Dashed(word) && word !in options
  }

  predicate AllTyped(parts: seq<Part>, options: set<string>) {
    forall i | 0 <= i < |parts| :: Typed(parts[i], options)
  }

  function WordsOf(part: Part): seq<string> {
    match part
    case Flag(word) => [word]
    case Valued(option, value) => [option, value]
    case Word(word) => [word]
  }

  function Line(parts: seq<Part>): seq<string> {
    if parts == [] then [] else Line(parts[..|parts| - 1]) + WordsOf(parts[|parts| - 1])
  }

  /** The plain words, in order. */
  function PlainOf(parts: seq<Part>): seq<string> {
    if parts == [] then []
    else if parts[0].Word? then [parts[0].word] + PlainOf(parts[1..])
    else PlainOf(parts[1..])
  }

  lemma {:induction false} ValueByFront(a: seq<string>, b: seq<string>, i: nat, options: set<string>)
    requires i <= |a|
    ensures IsValue(a + b, i, options) == IsValue(a, i, options)
  {
    if i > 0 {
      ValueByFront(a, b, i - 1, options);
    }
  }

  lemma {:induction false} PlainByFront(a: seq<string>, b: seq<string>, n: nat, options: set<string>)
    requires n <= |a|
    ensures Plain(a + b, n, options) == Plain(a, n, options)
  {
    if n > 0 {
      PlainByFront(a, b, n - 1, options);
      ValueByFront(a, b, n - 1, options);
    }
  }

  lemma DashedStarts(word: string)
    ensures StartsWith(word, "-") <==> Dashed(word)
  {
    if |word| >= 1 {
      assert word[..1] == [word[0]];
    }
  }

  lemma {:induction false} PlainMore(parts: seq<Part>, part: Part)
    ensures PlainOf(parts + [part]) == PlainOf(parts) + if part.Word? then [part.word] else []
  {
    if parts == [] {
      assert [part][1..] == [] && parts + [part] == [part];
    } else {
      assert (parts + [part])[1..] == parts[1..] + [part];
      PlainMore(parts[1..], part);
    }
  }

  /** One more part after a line at whose end no value is due. */
  lemma PartReads(words: seq<string>, part: Part, options: set<string>)
    requires Typed(part, options) && !IsValue(words, |words|, options)
    ensures var all := words + WordsOf(part);
      && !IsValue(all, |all|, options)
      && Plain(all, |all|, options) == Plain(words, |words|, options) + if part.Word? then [part.word] else []
  {
    var n, all := |words|, words + WordsOf(part);
    ValueByFront(words, WordsOf(part), n, options);
    PlainByFront(words, WordsOf(part), n, options);
    DashedStarts(all[n]);
    assert all[n] == WordsOf(part)[0];
    assert Plain(all, n + 1, options) == Plain(words, n, options) + if part.Word? then [part.word] else [];
    if part.Valued? {
      assert IsValue(all, n + 1, options) && !IsValue(all, n + 2, options);
      assert Plain(all, n + 2, options) == Plain(all, n + 1, options);
    }
  }

  /** The words read of a line are its plain ones. */
  lemma {:induction false} LineReads(parts: seq<Part>, options: set<string>)
    requires AllTyped(parts, options)
    ensures !IsValue(Line(parts), |Line(parts)|, options)
    ensures Plain(Line(parts), |Line(parts)|, options) == PlainOf(parts)
  {
    if parts != [] {
      var front, last := parts[..|parts| - 1], parts[|parts| - 1];
      LineReads(front, options);
      PartReads(Line(front), last, options);
      PlainMore(front, last);
      assert parts == front + [last];
      hide Plain;
      hide IsValue;
    }
  }

  lemma {:induction false} NonePlain(words: seq<string>, n: nat, options: set<string>)
    requires n <= |words| && Plain(words, n, options) == []
    ensures forall i | 0 <= i < n :: !IsPlain(words, i, options)
  {
    if n > 0 {
      NonePlain(words, n - 1, options);
    }
  }

  lemma {:induction false} NoWords(parts: seq<Part>)
    requires forall part | part in parts :: !part.Word?
    ensures PlainOf(parts) == []
  {
    if parts != [] {
      NoWords(parts[1..]);
    }
  }

  /** The subcommand of a line is its first plain word, after any options and their values. */
  lemma FirstIs(before: seq<Part>, word: string, after: seq<string>, options: set<string>)
    requires AllTyped(before, options) && (forall part | part in before :: !part.Word?) && Typed(Word(word), options)
    ensures FirstPlain(Line(before) + [word] + after, 0, options) == |Line(before)|
  {
    var n, all := |Line(before)|, Line(before) + [word] + after;
    LineReads(before, options);
    NoWords(before);
    Associate(Line(before), [word], after);
    PlainByFront(Line(before), [word] + after, n, options);
    ValueByFront(Line(before), [word] + after, n, options);
    NonePlain(all, n, options);
    DashedStarts(word);
    assert all[n] == word;
    assert IsPlain(all, n, options);
    hide IsPlain;
  }

  // ---------------------------------------------------------------- pushes as they are typed

  /** A push as it is typed: git's options, the subcommand, and the push's own options and words, none of
      which asks for every ref. */
  ghost predicate PushLine(before: seq<Part>, parts: seq<Part>, args: seq<string>) {
    && AllTyped(before, GLOBAL_VALUE_OPTIONS) && (forall part | part in before :: !part.Word?)
    && AllTyped(parts, PUSH_VALUE_OPTIONS)
    && (forall word | word in Line(parts) :: word !in {"--all", "--mirror", "--tags"})
    && args == Line(before) + ["push"] + Line(parts)
  }

  lemma AfterPush(front: seq<string>, words: seq<string>)
    requires forall word | word in words :: word !in {"--all", "--mirror", "--tags"}
    ensures var args, at := front + ["push"] + words, |front|;
      && at < |args| && args[at] == "push" && args[at + 1..] == words
      && forall i | at < i < |args| :: args[i] !in EVERY_REF
  {
    var args, at := front + ["push"] + words, |front|;
    forall i | at < i < |args| ensures args[i] !in EVERY_REF {
      assert args[i] == words[i - at - 1] && args[i] in words;
    }
  }

  /** Its words are the remote and the refspecs, whatever options are among them. */
  lemma PushReads(before: seq<Part>, parts: seq<Part>, args: seq<string>)
    requires PushLine(before, parts, args)
    ensures PushWords(args) == Some(Line(parts))
    ensures Plain(Line(parts), |Line(parts)|, PUSH_VALUE_OPTIONS) == PlainOf(parts)
  {
    assert Typed(Word("push"), GLOBAL_VALUE_OPTIONS);
    hide Plain;
    hide FirstPlain;
    hide Line;
    hide PlainOf;
    hide AllTyped;
    hide Typed;
    FirstIs(before, "push", Line(parts), GLOBAL_VALUE_OPTIONS);
    LineReads(parts, PUSH_VALUE_OPTIONS);
    AfterPush(Line(before), Line(parts));
  }

  /** Another subcommand, and a push of every ref, are pushes of no named branch. */
  lemma NoNamedPush(before: seq<Part>, word: string, after: seq<string>)
    requires AllTyped(before, GLOBAL_VALUE_OPTIONS) && (forall part | part in before :: !part.Word?)
    requires Typed(Word(word), GLOBAL_VALUE_OPTIONS)
    requires word != "push" || exists ref | ref in after :: ref in {"--all", "--mirror", "--tags"}
    ensures PushWords(Line(before) + [word] + after).None?
  {
    var at, args := |Line(before)|, Line(before) + [word] + after;
    FirstIs(before, word, after, GLOBAL_VALUE_OPTIONS);
    hide FirstPlain;
    hide Line;
    assert args[at] == word;
    if word == "push" {
      var i :| 0 <= i < |after| && after[i] in {"--all", "--mirror", "--tags"};
      assert args[at + 1 + i] == after[i];
    }
  }

  /** Nor is a line of options alone. */
  lemma NoSubcommand(before: seq<Part>)
    requires AllTyped(before, GLOBAL_VALUE_OPTIONS) && (forall part | part in before :: !part.Word?)
    ensures PushWords(Line(before)).None?
  {
    LineReads(before, GLOBAL_VALUE_OPTIONS);
    NoWords(before);
    NonePlain(Line(before), |Line(before)|, GLOBAL_VALUE_OPTIONS);
    hide Line;
    hide IsPlain;
  }

  /** Two such lines that name a remote at one URL and a refspec of one branch are claimed as one, unless
      ruled to be reads. */
  lemma TypedPushesMeet(
    names: Names, url: string, branch: string, resource: string,
    before: seq<Part>, parts: seq<Part>, args: seq<string>, ruled: Ruled, checkout: Checkout,
    before': seq<Part>, parts': seq<Part>, args': seq<string>, ruled': Ruled, checkout': Checkout)
    requires PushLine(before, parts, args) && PushLine(before', parts', args')
    requires |PlainOf(parts)| == 2 && |PlainOf(parts')| == 2 && branch != ""
    requires checkout.remoteUrl(PlainOf(parts)[0]) == Some(url) && checkout'.remoteUrl(PlainOf(parts')[0]) == Some(url)
    requires DestinationOf(PlainOf(parts)[1], checkout) == Some(branch)
    requires DestinationOf(PlainOf(parts')[1], checkout') == Some(branch)
    requires names.branchResource(url, branch) == Some(resource) && ruled.cls != "read" && ruled'.cls != "read"
    ensures ClaimedAs(names, "git", args, ruled, checkout, resource)
    ensures ClaimedAs(names, "git", args', ruled', checkout', resource)
  {
    hide DestinationOf;
    hide PlainOf;
    PushReads(before, parts, args);
    PushReads(before', parts', args');
    hide PushLine;
    hide PushWords;
    hide Plain;
    PushersMeet(names, url, branch, resource, args, ruled, checkout, args', ruled', checkout');
  }
}
