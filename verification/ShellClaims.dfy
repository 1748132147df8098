/** Which lines are claimed, and under what: two agents about to act on one thing meet in one claim. */
module ShellClaims {
  import opened Basics
  import opened ShellAction

  /** A line's action, where it is claimed under a resource. */
  ghost predicate ClaimedAs(
    names: Names, binary: string, args: seq<string>, ruled: Ruled, checkout: Checkout, resource: string)
  {
    ActionOf(names, binary, args, ruled, checkout).value
      == Some(Action(ruled.action, ruled.target, args, Some(resource)))
  }

  // ---------------------------------------------------------------- pushes

  /** A push of one branch is claimed under the branch's resource, whatever it is ruled to be but a read. */
  lemma PushClaimed(
    names: Names, args: seq<string>, ruled: Ruled, checkout: Checkout, url: string, branch: string, resource: string)
    requires branch != "" && PushesOne(args, checkout, url, branch)
    requires names.branchResource(url, branch) == Some(resource) && ruled.cls != "read"
    ensures ClaimedAs(names, "git", args, ruled, checkout, resource)
  {
    PushOne(names, args, checkout, url, branch);
    hide PushedBranches;
    hide PushesOne;
  }

  /** Two agents' pushes of one branch, each ruled as it may be, spelled as it may be and from its own
      checkout, are claimed under one resource. */
  lemma PushersMeet(
    names: Names, url: string, branch: string, resource: string,
    args: seq<string>, ruled: Ruled, checkout: Checkout, args': seq<string>, ruled': Ruled, checkout': Checkout)
    requires branch != "" && PushesOne(args, checkout, url, branch) && PushesOne(args', checkout', url, branch)
    requires names.branchResource(url, branch) == Some(resource) && ruled.cls != "read" && ruled'.cls != "read"
    ensures ClaimedAs(names, "git", args, ruled, checkout, resource)
    ensures ClaimedAs(names, "git", args', ruled', checkout', resource)
  {
    PushClaimed(names, args, ruled, checkout, url, branch, resource);
    PushClaimed(names, args', ruled', checkout', url, branch, resource);
  }

  /** Branch `k` of some is the first that is filed under a resource. */
  ghost predicate FirstFiled(names: Names, url: string, branches: seq<Option<string>>, k: nat, resource: string) {
    && k < |branches| && branches[k].Some? && branches[k].value != ""
    && names.branchResource(url, branches[k].value) == Some(resource)
    && forall i | 0 <= i < k && branches[i].Some? && branches[i].value != "" ::
         names.branchResource(url, branches[i].value).None?
  }

  lemma {:induction false} NoneFiled(names: Names, url: string, branches: seq<Option<string>>)
    requires forall i | 0 <= i < |branches| && branches[i].Some? && branches[i].value != "" ::
      names.branchResource(url, branches[i].value).None?
    ensures Resources(names, url, branches) == []
  {
    if branches != [] {
      NoneFiled(names, url, branches[..|branches| - 1]);
    }
  }

  lemma {:induction false} FirstOfResources(
    names: Names, url: string, branches: seq<Option<string>>, k: nat, resource: string)
    requires FirstFiled(names, url, branches, k, resource)
    ensures Resources(names, url, branches) != [] && Resources(names, url, branches)[0] == resource
  {
    var front := branches[..|branches| - 1];
    if k < |front| {
      FirstOfResources(names, url, front, k, resource);
    } else {
      NoneFiled(names, url, front);
    }
  }

  /** A push of several branches is claimed under the first of them that has a resource. */
  lemma PushOfManyClaimed(
    names: Names, args: seq<string>, ruled: Ruled, checkout: Checkout, url: string, k: nat, resource: string)
    requires PushWords(args).Some? && ruled.cls != "read"
    requires var positional := Plain(PushWords(args).value, |PushWords(args).value|, PUSH_VALUE_OPTIONS);
      && |positional| > 1 && checkout.remoteUrl(positional[0]) == Some(url)
      && FirstFiled(names, url, Destinations(positional[1..], checkout), k, resource)
    ensures ClaimedAs(names, "git", args, ruled, checkout, resource)
  {
    hide PushWords;
    hide Plain;
    hide Destinations;
    var positional := Plain(PushWords(args).value, |PushWords(args).value|, PUSH_VALUE_OPTIONS);
    FirstOfResources(names, url, Destinations(positional[1..], checkout), k, resource);
    hide Resources;
    hide FirstFiled;
  }

  // ---------------------------------------------------------------- pull requests and issues

  /** A `gh` line about one pull request or issue that does more than look: named by a URL, or by a number
      in the repository of its flag or, without one, of its checkout. */
  predicate About(
    names: Names, args: seq<string>, checkout: Checkout, repository: Repository, field: string, number: string)
  {
    && |args| >= 3
    && ((args[0] == "pr" && field == "pull_number") || (args[0] == "issue" && field == "issue_number"))
    && args[1] !in {"view", "list", "status", "diff", "checks"}
    && match names.ghUrl(args[2])
       case Some((owner, repo, named)) => repository == Repository(owner, repo) && number == named
       case None =>
         && number == args[2] && IsNumber(number)
         && match Flagged(names, args)
            case Some(flagged) => repository == flagged
            case None => checkout.repositoryOf() == Some(repository)
  }

  /** The repository a line's first flag for one names, where it has such a flag and it names one. */
  function Flagged(names: Names, args: seq<string>): Option<Repository> {
    if args == [] then None
    else if args[0] in {"-R", "--repo"} then names.ownerAndRepo(if |args| > 1 then args[1] else "")
    else Flagged(names, args[1..])
  }

  lemma {:induction false} FlaggedFrom(names: Names, args: seq<string>, i: nat)
    requires i <= |args|
    ensures var at := FirstRepoFlag(args, i);
      Flagged(names, args[i..])
      == if at == |args| then None else names.ownerAndRepo(if at + 1 < |args| then args[at + 1] else "")
    decreases |args| - i
  {
    if i < |args| && args[i] !in GH_REPO_FLAGS {
      FlaggedFrom(names, args, i + 1);
      assert args[i..][1..] == args[i + 1..];
    }
  }

  lemma FlagIs(names: Names, args: seq<string>)
    ensures Flagged(names, args) == RepoFlag(names, args)
  {
    FlaggedFrom(names, args, 0);
    assert args[0..] == args;
  }

  lemma GhClaimed(
    names: Names, args: seq<string>, ruled: Ruled, checkout: Checkout,
    repository: Repository, field: string, number: string, resource: string)
    requires About(names, args, checkout, repository, field, number) && ruled.cls != "read"
    requires names.pullResource(repository, field, number) == Some(resource)
    ensures ClaimedAs(names, "gh", args, ruled, checkout, resource)
  {
    FlagIs(names, args);
    hide RepoFlag;
    hide Flagged;
  }

  /** Two lines about one pull request or issue, one by URL and one by number say, are claimed under one
      resource. */
  lemma GhLinesMeet(
    names: Names, repository: Repository, field: string, number: string, resource: string,
    args: seq<string>, ruled: Ruled, checkout: Checkout, args': seq<string>, ruled': Ruled, checkout': Checkout)
    requires About(names, args, checkout, repository, field, number) && ruled.cls != "read"
    requires About(names, args', checkout', repository, field, number) && ruled'.cls != "read"
    requires names.pullResource(repository, field, number) == Some(resource)
    ensures ClaimedAs(names, "gh", args, ruled, checkout, resource)
    ensures ClaimedAs(names, "gh", args', ruled', checkout', resource)
  {
    GhClaimed(names, args, ruled, checkout, repository, field, number, resource);
    GhClaimed(names, args', ruled', checkout', repository, field, number, resource);
  }

  // ---------------------------------------------------------------- the rest

  /** A read is never claimed. */
  lemma ReadsUnclaimed(names: Names, binary: string, args: seq<string>, ruled: Ruled, checkout: Checkout)
    requires ruled.cls == "read"
    ensures ActionOf(names, binary, args, ruled, checkout).value.None?
  {
    hide ResourceOf;
  }

  /** A line of another program is claimed by itself, under no resource: a request where it sends something,
      and anything else where its class changes what is outside. */
  lemma OthersClaimed(names: Names, binary: string, args: seq<string>, ruled: Ruled, checkout: Checkout)
    requires binary != "git" && binary != "gh"
    ensures var acts := if binary == "curl" then names.isSending(args) else names.changesExternalState(ruled.cls);
      ActionOf(names, binary, args, ruled, checkout) == Told(
      if ruled.cls != "read" && acts
      then Some(Action(ruled.action, ruled.target, args, None)) else None, false)
  {
  }

  /** And so is a `git` or `gh` line that names nothing to file it under. */
  lemma UnfiledClaimed(names: Names, binary: string, args: seq<string>, ruled: Ruled, checkout: Checkout)
    requires binary == "git" || binary == "gh"
    requires binary == "git" ==> PushWords(args).None?
    requires binary == "gh" ==> |args| < 3 || args[0] !in {"pr", "issue"} || args[1] in GH_READS
    ensures ActionOf(names, binary, args, ruled, checkout) == Told(
      if ruled.cls != "read" && names.changesExternalState(ruled.cls)
      then Some(Action(ruled.action, ruled.target, args, None)) else None, false)
  {
    hide PushWords;
  }
}
