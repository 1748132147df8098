/** What a command line acts on, in the terms the claim register compares, and the branches a push
    writes. A line may leave a question for the checkout it runs in; what is asked goes through
    `Checkout`, and each result says whether anything was asked. */
module ShellAction {
  import opened Basics

  datatype Repository = Repository(owner: string, repo: string)

  /** The three questions a line can leave to where it runs. */
  datatype Checkout = Checkout(
    repositoryOf: () -> Option<Repository>,
    currentBranch: () -> Option<string>,
    remoteUrl: string -> Option<string>)

  /** A value, and whether a question was asked on the way to it. */
  datatype Told<+T> = Told(value: T, asked: bool)

  /** What the rest of the system says of names and classes. */
  datatype Names = Names(
    pullResource: (Repository, string, string) -> Option<string>,
    branchResource: (string, string) -> Option<string>,
    ghUrl: string -> Option<(string, string, string)>,
    ownerAndRepo: string -> Option<Repository>,
    changesExternalState: string -> bool,
    isSending: seq<string> -> bool)

  datatype Ruled = Ruled(action: string, cls: string, target: Option<string>)

  datatype Action = Action(
    operation: string, target: Option<string>, arguments: seq<string>, resource: Option<string>)

  const READ := "read"
  const GLOBAL_VALUE_OPTIONS := {"-C", "-c", "--git-dir", "--work-tree", "--namespace", "--exec-path"}
  const PUSH_VALUE_OPTIONS := {"-o", "--push-option", "--receive-pack", "--exec", "--repo"}
  const EVERY_REF := {"--all", "--mirror", "--tags"}
  const GH_READS := {"view", "list", "status", "diff", "checks"}
  const GH_REPO_FLAGS := {"-R", "--repo"}
  const HEADS := "refs/heads/"

  predicate StartsWith(s: string, prefix: string) {
    |prefix| <= |s| && s[..|prefix|] == prefix
  }

  // ---------------------------------------------------------------- words of a line

  /** Word `i` is the value of the option before it, and not an option itself. */
  predicate IsValue(words: seq<string>, i: nat, options: set<string>)
    requires i <= |words|
  {
    i > 0 && words[i - 1] in options && !IsValue(words, i - 1, options)
  }

  predicate IsPlain(words: seq<string>, i: nat, options: set<string>)
    requires i < |words|
  {
    !IsValue(words, i, options) && words[i] !in options && !StartsWith(words[i], "-")
  }

  /** The words that are neither options nor their values, in order. */
  function Plain(words: seq<string>, n: nat, options: set<string>): seq<string>
    requires n <= |words|
  {
    if n == 0 then []
    else Plain(words, n - 1, options) + if IsPlain(words, n - 1, options) then [words[n - 1]] else []
  }

  /** The first of them, or the end. */
  function FirstPlain(words: seq<string>, i: nat, options: set<string>): (at: nat)
    requires i <= |words|
    ensures i <= at <= |words|
    ensures forall j | i <= j < at :: !IsPlain(words, j, options)
    ensures at < |words| ==> IsPlain(words, at, options)
    decreases |words| - i
  {
    if i == |words| || IsPlain(words, i, options) then i else FirstPlain(words, i + 1, options)
  }

  /** The index of git's subcommand. */
  method SubcommandAt(args: seq<string>) returns (at: nat)
    ensures at == FirstPlain(args, 0, GLOBAL_VALUE_OPTIONS)
  {
    var i := 0;
    while i < |args|
      invariant 0 <= i <= |args| + 1
      invariant i <= |args| ==> !IsValue(args, i, GLOBAL_VALUE_OPTIONS)
      invariant FirstPlain(args, Least(i, |args|), GLOBAL_VALUE_OPTIONS) == FirstPlain(args, 0, GLOBAL_VALUE_OPTIONS)
    {
      var word := args[i];
      if word in GLOBAL_VALUE_OPTIONS {
        assert !IsPlain(args, i, GLOBAL_VALUE_OPTIONS);
        assert i + 1 < |args| ==> !IsPlain(args, i + 1, GLOBAL_VALUE_OPTIONS);
        i := i + 2;
        continue;
      }
      if !StartsWith(word, "-") {
        return i;
      }
      i := i + 1;
    }
    at := |args|;
  }

  function Least(a: nat, b: nat): nat {
    if a < b then a else b
  }

  /** The words of a push that are not options or their values. */
  method Positional(words: seq<string>) returns (positional: seq<string>)
    ensures positional == Plain(words, |words|, PUSH_VALUE_OPTIONS)
  {
    positional := [];
    var i := 0;
    while i < |words|
      invariant 0 <= i <= |words| + 1
      invariant i <= |words| ==> !IsValue(words, i, PUSH_VALUE_OPTIONS)
      invariant positional == Plain(words, Least(i, |words|), PUSH_VALUE_OPTIONS)
    {
      var word := words[i];
      if word in PUSH_VALUE_OPTIONS {
        assert Plain(words, i + 1, PUSH_VALUE_OPTIONS) == positional;
        if i + 1 < |words| {
          assert IsValue(words, i + 1, PUSH_VALUE_OPTIONS);
          assert Plain(words, i + 2, PUSH_VALUE_OPTIONS) == positional;
        }
        i := i + 2;
        continue;
      }
      if StartsWith(word, "-") {
        assert Plain(words, i + 1, PUSH_VALUE_OPTIONS) == positional;
        i := i + 1;
        continue;
      }
      positional := positional + [word];
      i := i + 1;
    }
  }

  // ---------------------------------------------------------------- refspecs

  /** What is after the last colon, or all of it. */
  function AfterColon(spec: string): (r: string)
    ensures ':' !in r
    ensures r == spec || exists k :: 0 <= k < |spec| && spec[k] == ':' && r == spec[k + 1..]
  {
    if spec == "" then ""
    else
      var rest := AfterColon(spec[1..]);
      if ':' in spec[1..] then rest
      else if spec[0] == ':' then spec[1..]
      else spec
  }

  /** A refspec's branch: of its part after the colon, which may be forced, and none if that is no branch. */
  function DestinationOf(refspec: string, checkout: Checkout): Option<string> {
    var spec := if StartsWith(refspec, "+") then refspec[1..] else refspec;
    BranchOf(AfterColon(spec), checkout)
  }

  function BranchOf(target: string, checkout: Checkout): Option<string> {
    if target == "HEAD" then checkout.currentBranch()
    else if StartsWith(target, HEADS) then Some(target[|HEADS|..])
    else if StartsWith(target, "refs/") then None
    else Some(target)
  }

  lemma {:induction false} AfterLastColon(source: string, target: string)
    requires ':' !in target
    ensures AfterColon(source + ":" + target) == target
  {
    var spec := source + ":" + target;
    if source == "" {
      assert spec == [':'] + target;
    } else {
      assert spec[1..] == source[1..] + ":" + target;
      assert spec[1..][|source| - 1] == ':';
      AfterLastColon(source[1..], target);
    }
  }

  lemma {:induction false} NoColon(target: string)
    requires ':' !in target
    ensures AfterColon(target) == target
  {
    if target != "" {
      NoColon(target[1..]);
    }
  }

  lemma NotForced(s: string)
    requires s != "" && !StartsWith(s, "+")
    ensures s[0] != '+'
  {
    assert s[..1] == [s[0]];
  }

  lemma Forced(spec: string, checkout: Checkout)
    ensures DestinationOf("+" + spec, checkout) == BranchOf(AfterColon(spec), checkout)
  {
    hide BranchOf;
    hide AfterColon;
    assert ("+" + spec)[1..] == spec && ("+" + spec)[..1] == "+";
  }

  lemma Unforced(spec: string, checkout: Checkout)
    requires spec != "" && spec[0] != '+'
    ensures DestinationOf(spec, checkout) == BranchOf(AfterColon(spec), checkout)
  {
    hide BranchOf;
    hide AfterColon;
  }

  /** A forced refspec, and one that is not, write what follows the colon. */
  lemma Writes(source: string, target: string, checkout: Checkout)
    requires ':' !in target
    ensures DestinationOf("+" + source + ":" + target, checkout) == BranchOf(target, checkout)
    ensures !StartsWith(source + ":", "+") ==>
      DestinationOf(source + ":" + target, checkout) == BranchOf(target, checkout)
  {
    hide BranchOf;
    hide AfterColon;
    AfterLastColon(source, target);
    var spec := source + ":" + target;
    assert "+" + source + ":" + target == "+" + spec;
    Forced(spec, checkout);
    if !StartsWith(source + ":", "+") {
      assert spec[0] == (source + ":")[0];
      NotForced(source + ":");
      Unforced(spec, checkout);
    }
  }

  lemma WritesBare(target: string, checkout: Checkout)
    requires ':' !in target
    ensures !StartsWith(target, "+") ==> DestinationOf(target, checkout) == BranchOf(target, checkout)
    ensures DestinationOf("+" + target, checkout) == BranchOf(target, checkout)
  {
    hide BranchOf;
    NoColon(target);
    assert ("+" + target)[1..] == target;
  }

  lemma Branches(branch: string, checkout: Checkout)
    ensures branch != "HEAD" && !StartsWith(branch, "refs/") ==> BranchOf(branch, checkout) == Some(branch)
    ensures BranchOf(HEADS + branch, checkout) == Some(branch)
    ensures BranchOf("refs/tags/" + branch, checkout) == None
  {
    var full, tag := HEADS + branch, "refs/tags/" + branch;
    assert full[..|HEADS|] == HEADS && full[|HEADS|..] == branch && full[0] == 'r';
    assert tag[0] == 'r' && tag[5] == 't' && tag[..5] == "refs/" && HEADS[5] == 'h';
    if StartsWith(branch, HEADS) {
      assert branch[..5] == HEADS[..5] == "refs/";
    }
  }

  /** Every way to write one branch comes to that branch: by its name, in full, from any source,
      forced or not, and deleted; and no way to write a tag comes to any. */
  lemma SpelledAlike(branch: string, source: string, checkout: Checkout)
    requires ':' !in branch && branch != "HEAD" && !StartsWith(branch, "refs/")
    ensures !StartsWith(branch, "+") ==> DestinationOf(branch, checkout) == Some(branch)
    ensures DestinationOf("+" + branch, checkout) == Some(branch)
    ensures DestinationOf("" + ":" + branch, checkout) == Some(branch)
    ensures DestinationOf("+" + source + ":" + branch, checkout) == Some(branch)
    ensures !StartsWith(source + ":", "+") ==> DestinationOf(source + ":" + branch, checkout) == Some(branch)
    ensures DestinationOf("+" + source + ":" + (HEADS + branch), checkout) == Some(branch)
    ensures DestinationOf("+" + source + ":" + ("refs/tags/" + branch), checkout) == None
  {
    assert ':' !in HEADS + branch && ':' !in "refs/tags/" + branch;
    hide BranchOf;
    hide DestinationOf;
    Branches(branch, checkout);
    WritesBare(branch, checkout);
    Writes("", branch, checkout);
    Writes(source, branch, checkout);
    Writes(source, HEADS + branch, checkout);
    Writes(source, "refs/tags/" + branch, checkout);
  }

  /** And every way to write HEAD comes to the branch checked out. */
  lemma HeadSpelled(source: string, checkout: Checkout)
    ensures DestinationOf("HEAD", checkout) == checkout.currentBranch()
    ensures DestinationOf("+HEAD", checkout) == checkout.currentBranch()
    ensures DestinationOf("+" + source + ":HEAD", checkout) == checkout.currentBranch()
    ensures !StartsWith(source + ":", "+") ==> DestinationOf(source + ":HEAD", checkout) == checkout.currentBranch()
  {
    assert BranchOf("HEAD", checkout) == checkout.currentBranch();
    hide BranchOf;
    hide DestinationOf;
    assert "+" + "HEAD" == "+HEAD" && "+" + source + ":" + "HEAD" == "+" + source + ":HEAD";
    assert source + ":" + "HEAD" == source + ":HEAD";
    WritesBare("HEAD", checkout);
    Writes(source, "HEAD", checkout);
  }

  // ---------------------------------------------------------------- what a push writes

  /** The push's words after the subcommand, or none for a line that is no push of named branches. */
  function PushWords(args: seq<string>): Option<seq<string>> {
    var at := FirstPlain(args, 0, GLOBAL_VALUE_OPTIONS);
    if at == |args| || args[at] != "push" then None
    else if exists i :: at < i < |args| && args[i] in EVERY_REF then None
    else Some(args[at + 1..])
  }

  function Destinations(refspecs: seq<string>, checkout: Checkout): seq<Option<string>> {
    seq(|refspecs|, i requires 0 <= i < |refspecs| => DestinationOf(refspecs[i], checkout))
  }

  /** The resources the named branches are filed under, each once, in order. */
  function Resources(names: Names, url: string, branches: seq<Option<string>>): (r: seq<string>)
    ensures NoRepeats(r)
    ensures forall x | x in r :: exists i ::
      0 <= i < |branches| && branches[i].Some? && branches[i].value != ""
      && names.branchResource(url, branches[i].value) == Some(x)
    ensures forall i | 0 <= i < |branches| && branches[i].Some? && branches[i].value != "" ::
      names.branchResource(url, branches[i].value).Some? ==> names.branchResource(url, branches[i].value).value in r
  {
    if branches == [] then []
    else
      var front, last := Resources(names, url, branches[..|branches| - 1]), branches[|branches| - 1];
      if last.None? || last.value == "" then front
      else
        var resource := names.branchResource(url, last.value);
        if resource.None? || resource.value in front then front else front + [resource.value]
  }

  function PushedBranches(names: Names, args: seq<string>, checkout: Checkout): Told<seq<string>> {
    match PushWords(args)
    case None => Told([], false)
    case Some(words) =>
      var positional := Plain(words, |words|, PUSH_VALUE_OPTIONS);
      var remote := if positional == [] then "origin" else positional[0];
      var url := checkout.remoteUrl(remote);
      if url.None? then Told([], true)
      else
        var branches :=
          if |positional| <= 1 then [checkout.currentBranch()]
          else Destinations(positional[1..], checkout);
        Told(Resources(names, url.value, branches), true)
  }

  // ---------------------------------------------------------------- what a line acts on

  /** The number field a `gh` noun names things by. */
  function GhNoun(noun: string): Option<string> {
    if noun == "pr" then Some("pull_number")
    else if noun == "issue" then Some("issue_number")
    else None
  }

  predicate IsNumber(s: string) {
    s != "" && forall c | c in s :: '0' <= c <= '9'
  }

  function FirstRepoFlag(args: seq<string>, i: nat): (at: nat)
    requires i <= |args|
    ensures i <= at <= |args|
    ensures forall j | i <= j < at :: args[j] !in GH_REPO_FLAGS
    ensures at < |args| ==> args[at] in GH_REPO_FLAGS
    decreases |args| - i
  {
    if i == |args| || args[i] in GH_REPO_FLAGS then i else FirstRepoFlag(args, i + 1)
  }

  function RepoFlag(names: Names, args: seq<string>): Option<Repository> {
    var at := FirstRepoFlag(args, 0);
    if at == |args| then None
    else names.ownerAndRepo(if at + 1 < |args| then args[at + 1] else "")
  }

  function GhResource(names: Names, args: seq<string>, checkout: Checkout): Told<Option<string>> {
    if |args| < 3 then Told(None, false)
    else
      var field := GhNoun(args[0]);
      if field.None? || args[1] in GH_READS then Told(None, false)
      else
        var byUrl := names.ghUrl(args[2]);
        if byUrl.Some? then
          var (owner, repo, number) := byUrl.value;
          Told(names.pullResource(Repository(owner, repo), field.value, number), false)
        else if !IsNumber(args[2]) then Told(None, false)
        else
          var flag := RepoFlag(names, args);
          var repository := if flag.Some? then flag else checkout.repositoryOf();
          Told(
            if repository.None? then None else names.pullResource(repository.value, field.value, args[2]),
            flag.None?)
  }

  function ResourceOf(names: Names, binary: string, args: seq<string>, checkout: Checkout): Told<Option<string>> {
    if binary == "gh" then GhResource(names, args, checkout)
    else if binary == "git" then
      var pushed := PushedBranches(names, args, checkout);
      Told(if pushed.value == [] then None else Some(pushed.value[0]), pushed.asked)
    else Told(None, false)
  }

  predicate IsWorthClaiming(names: Names, binary: string, args: seq<string>, cls: string, resource: Option<string>) {
    if cls == READ then false
    else if resource.Some? then true
    else if binary == "curl" then names.isSending(args)
    else names.changesExternalState(cls)
  }

  /** The action a command takes, or none for one no two agents collide over. */
  function ActionOf(
    names: Names, binary: string, args: seq<string>, ruled: Ruled, checkout: Checkout): Told<Option<Action>>
  {
    var resource := ResourceOf(names, binary, args, checkout);
    Told(
      if IsWorthClaiming(names, binary, args, ruled.cls, resource.value)
      then Some(Action(ruled.action, ruled.target, args, resource.value))
      else None,
      resource.asked)
  }

  // ---------------------------------------------------------------- asking for nothing

  /** A checkout that answers nothing. */
  function Doubt(): Checkout {
    Checkout(() => None, () => None, remote => None)
  }

  /** Whether a claim is possible, as far as anyone can tell who may not ask the checkout. */
  predicate MayBeClaimed(names: Names, binary: string, args: seq<string>, ruled: Ruled) {
    var told := ActionOf(names, binary, args, ruled, Doubt());
    told.asked || told.value.Some?
  }

  /** Whether a line asks anything is in the line alone, and a line that asks nothing acts on the same
      thing wherever it runs. */
  lemma AskingIsInTheLine(names: Names, binary: string, args: seq<string>, ruled: Ruled, a: Checkout, b: Checkout)
    ensures ActionOf(names, binary, args, ruled, a).asked == ActionOf(names, binary, args, ruled, b).asked
    ensures !ActionOf(names, binary, args, ruled, a).asked ==>
      ActionOf(names, binary, args, ruled, a) == ActionOf(names, binary, args, ruled, b)
  {
    hide PushWords;
    hide Plain;
    hide Resources;
    hide RepoFlag;
    hide IsWorthClaiming;
  }

  /** What may not be claimed is never claimed, whatever checkout it runs in. */
  lemma NeverClaimed(names: Names, binary: string, args: seq<string>, ruled: Ruled, checkout: Checkout)
    requires !MayBeClaimed(names, binary, args, ruled)
    ensures ActionOf(names, binary, args, ruled, checkout) == Told(None, false)
  {
    AskingIsInTheLine(names, binary, args, ruled, Doubt(), checkout);
  }

  /** A line asks exactly where it is a `gh` line about a numbered thing whose repository it does not
      say, or a push of branches it may name. */
  lemma AsksExactly(names: Names, binary: string, args: seq<string>, ruled: Ruled, checkout: Checkout)
    ensures ActionOf(names, binary, args, ruled, checkout).asked <==>
      || (binary == "git" && PushWords(args).Some?)
      || (binary == "gh" && |args| >= 3 && GhNoun(args[0]).Some? && args[1] !in GH_READS
          && names.ghUrl(args[2]).None? && IsNumber(args[2]) && RepoFlag(names, args).None?)
  {
  }

  /** A line that pushes one branch to the remote at a URL: the branch its one refspec writes, or the
      one checked out where it names none. */
  predicate PushesOne(args: seq<string>, checkout: Checkout, url: string, branch: string) {
    && PushWords(args).Some?
    && var words := PushWords(args).value;
       var positional := Plain(words, |words|, PUSH_VALUE_OPTIONS);
       && checkout.remoteUrl(if positional == [] then "origin" else positional[0]) == Some(url)
       && |positional| <= 2
       && Some(branch) == if |positional| <= 1 then checkout.currentBranch() else DestinationOf(positional[1], checkout)
  }

  /** Two lines that push one branch to one remote are filed under one resource, whatever options they
      have, however each names the remote and spells the branch, and wherever each runs. */
  lemma PushesMeet(
    names: Names, url: string, branch: string, args: seq<string>, checkout: Checkout, args': seq<string>,
    checkout': Checkout)
    requires branch != "" && PushesOne(args, checkout, url, branch) && PushesOne(args', checkout', url, branch)
    ensures PushedBranches(names, args, checkout).value == PushedBranches(names, args', checkout').value
    ensures PushedBranches(names, args, checkout).value ==
      match names.branchResource(url, branch) case None => [] case Some(resource) => [resource]
  {
    PushOne(names, args, checkout, url, branch);
    PushOne(names, args', checkout', url, branch);
  }

  lemma PushOne(names: Names, args: seq<string>, checkout: Checkout, url: string, branch: string)
    requires branch != "" && PushesOne(args, checkout, url, branch)
    ensures PushedBranches(names, args, checkout).value ==
      match names.branchResource(url, branch) case None => [] case Some(resource) => [resource]
  {
    hide PushWords;
    hide Plain;
    hide DestinationOf;
    hide Resources;
    OneResource(names, url, branch);
    var words := PushWords(args).value;
    var positional := Plain(words, |words|, PUSH_VALUE_OPTIONS);
    if |positional| == 2 {
      assert positional[1..] == [positional[1]];
      assert Destinations(positional[1..], checkout) == [Some(branch)];
    }
  }

  /** The common spellings are such lines: the branch by its name, from any source by its name, and from
      any source in full, each forced. */
  lemma CommonPushes(remote: string, branch: string, source: string, checkout: Checkout, url: string)
    requires ':' !in branch && branch != "HEAD" && !StartsWith(branch, "refs/")
      && checkout.remoteUrl(remote) == Some(url)
    requires !StartsWith(remote, "-") && remote !in PUSH_VALUE_OPTIONS && remote !in EVERY_REF
    ensures PushesOne(["push", remote, "+" + branch], checkout, url, branch)
    ensures PushesOne(["push", remote, "+" + source + ":" + branch], checkout, url, branch)
    ensures PushesOne(["push", remote, "+" + source + ":" + (HEADS + branch)], checkout, url, branch)
  {
    SpelledAlike(branch, source, checkout);
    PushedOne(remote, "+" + branch, branch, checkout, url);
    PushedOne(remote, "+" + source + ":" + branch, branch, checkout, url);
    PushedOne(remote, "+" + source + ":" + (HEADS + branch), branch, checkout, url);
  }

  lemma PushedOne(remote: string, refspec: string, branch: string, checkout: Checkout, url: string)
    requires checkout.remoteUrl(remote) == Some(url)
    requires !StartsWith(remote, "-") && remote !in PUSH_VALUE_OPTIONS && remote !in EVERY_REF
    requires |refspec| > 0 && refspec[0] == '+' && DestinationOf(refspec, checkout) == Some(branch)
    ensures PushesOne(["push", remote, refspec], checkout, url, branch)
  {
    PushOneWords(remote, refspec);
    PlainTwo(remote, refspec);
    hide PushWords;
    hide Plain;
    hide DestinationOf;
  }

  lemma PushOneWords(remote: string, refspec: string)
    requires remote !in EVERY_REF && |refspec| > 0 && refspec[0] == '+'
    ensures PushWords(["push", remote, refspec]) == Some([remote, refspec])
  {
    var args := ["push", remote, refspec];
    assert IsPlain(args, 0, GLOBAL_VALUE_OPTIONS) by { assert args[0][0] == 'p'; }
    assert FirstPlain(args, 0, GLOBAL_VALUE_OPTIONS) == 0;
    assert forall option | option in EVERY_REF :: option[0] == '-';
    assert args[1..] == [remote, refspec];
  }

  lemma PlainTwo(remote: string, refspec: string)
    requires !StartsWith(remote, "-") && remote !in PUSH_VALUE_OPTIONS && |refspec| > 0 && refspec[0] == '+'
    ensures Plain([remote, refspec], 2, PUSH_VALUE_OPTIONS) == [remote, refspec]
  {
    var words := [remote, refspec];
    assert forall option | option in PUSH_VALUE_OPTIONS :: option[0] == '-';
    assert IsPlain(words, 0, PUSH_VALUE_OPTIONS) && IsPlain(words, 1, PUSH_VALUE_OPTIONS);
    assert Plain(words, 1, PUSH_VALUE_OPTIONS) == [remote];
  }

  lemma OneResource(names: Names, url: string, branch: string)
    requires branch != ""
    ensures Resources(names, url, [Some(branch)])
      == match names.branchResource(url, branch) case None => [] case Some(resource) => [resource]
  {
    assert [Some(branch)][..0] == [];
    assert Resources(names, url, []) == [];
  }

  /** The first branch a push writes, as the line's methods work it out. */
  method Pushed(names: Names, args: seq<string>, checkout: Checkout) returns (resources: seq<string>)
    ensures resources == PushedBranches(names, args, checkout).value
  {
    var at := SubcommandAt(args);
    if at == |args| || args[at] != "push" {
      return [];
    }
    var words := args[at + 1..];
    var i := 0;
    while i < |words|
      invariant 0 <= i <= |words| && forall j | 0 <= j < i :: words[j] !in EVERY_REF
    {
      if words[i] in EVERY_REF {
        assert args[at + 1 + i] in EVERY_REF;
        return [];
      }
      i := i + 1;
    }
    assert PushWords(args) == Some(words) by {
      forall j | at < j < |args| ensures args[j] !in EVERY_REF {
        assert args[j] == words[j - at - 1];
      }
    }
    var positional := Positional(words);
    var url := checkout.remoteUrl(if positional == [] then "origin" else positional[0]);
    if url.None? {
      return [];
    }
    var branches :=
      if |positional| <= 1 then [checkout.currentBranch()] else Destinations(positional[1..], checkout);
    resources := Resources(names, url.value, branches);
  }
}
