# Memnox: a verified model of the interceptors, the proxy and the guard

Memnox puts rules between an agent and what it does. This project models the parts of it where a
mistake is hardest to see: the native wrapper's wire format and its fallback to Node, the daemon's
plan against the Node interceptor it stands in for, the MCP proxy's session, the claims it holds, the
cloud guard, and the small text and timing machines around them. `dafny verify dfyconfig.toml` checks
all of it.

| files | what they hold |
|---|---|
| `Basics`, `Utf8` | options, texts rewritten piece by piece, UTF-8 (sections 3 and 4 of RFC 3629) |
| `Json`, `JsonParser`, `JsonDoc`, `JsonDepth`, `JsonTree` | the reader's meaning character by character; the byte cursor that refines it; every spelling a JSON text can have; how deep it may be; every tree has one |
| `Protocol`, `NativeIntercept`, `ShimPaths` | the request line, the daemon's answer, one run of the native wrapper as its effects, and the paths it will start |
| `ShellAction`, `ShellWords`, `ShellClaims`, `FastIntercept`, `InterceptLookups`, `InterceptRulings`, `InterceptorCli`, `FastPath`, `FastPathRuns` | what a line claims, and that it is claimed; what is looked up for a command and what comes of ruling on it; the daemon's plan against Node's run; both as they run; wrapper and daemon together, line by line, against Node's run; a machine for each way they differ |
| `FirewallSession`, `FirewallInvariants`, `FirewallOutcomes`, `FirewallRecord`, `FirewallListings`, `FirewallProxy` | the session as a step machine with an interleaving at each `await`; what every run keeps; the session object |
| `DuplicateWork`, `ProxyClaims` | claims counted while their calls run; the session and its claims as one machine |
| `ArgsDigest`, `Guard`, `GuardRuns`, `GuardPauses`, `GuardAnswers`, `GuardCheck`, `RecordQueue` | what stands for a call's arguments; the cloud guard as a step machine; why a call is allowed; the guard object; its record |
| `CodexPatch`, `CodexPatchRoundTrip`, `EditReplacements`, `WindowsExec`, `EditDistance` | the patch reader, edits and their undoing, Windows quoting, the two-row distance |
| `EditWatcher`, `ConfigWatch` | the sliding window of claims and notices; the wake and settle protocol |

An object whose methods update its fields is a class here, and a suspended `async` method is cut at its
`await`s: each stretch between two of them is one method, whose contract says it is one step of a
machine. Runs are sequences of such steps in any order, and the main results hold of every run.
Everything outside (files, processes, sockets, clocks, people, signature checks, rule matching) is a
parameter or a step's input.

Where the model found the code not to do what one might expect, with the input that shows it and the
exact condition:

- The fast path and Node tell a command's end apart where a signal with a number ends it or it does not
  start (`FastPath.SignalDiffers`, `FastPath.UnstartedDiffers`), a lost report leaves the daemon's row
  without a code or leaves no row (`FastPath.LostReport`), and the daemon looks for a file that is there
  where Node looks for one that may be run (`FastPath.PresentDiffers`). `FastPath.FastIsNode` says exactly
  when the two are the same, and `FastPathRuns` has a machine and a run for each.
- A `tools/call` under the id of a call still open takes its place, and the earlier call is then neither
  open nor recorded (`FirewallRecord.ReusedId`). `FirewallRecord.Conserved` says this is the only way.
- The result of a call that holds no claim lets go of the keeper another call under the same fingerprint
  still needs. Such a call is one the workspace could not answer for
  (`DuplicateWork.UnansweredCallReleasesAnother`), one a person let out
  (`ProxyClaims.PersonClaimsNothing`, `ProxyClaims.UnheldReplyReleases`, and a run from the start,
  `ProxyClaims.PersonLetsOut`), or one from before a close.
  `DuplicateWork.KeptWhileHeld`, and `ProxyClaims.KeptThroughout` for a whole session, say exactly when the
  counts are right.
- A resume that answers a question about one pause lifts a newer pause of the session too
  (`GuardRuns.NewerPauseLifted`), exactly where one was set in between
  (`GuardRuns.LiftsTheOneAskedAbout`).
- Two calls' arguments that differ only below the top, under names that are not at the top, have one
  digest (`ArgsDigest.NestedLost`), so a signed answer bound to the one is bound to the
  other (`GuardRuns.BoundAlike`). `ArgsDigest.SameText` says exactly when two are written alike.
- Two flushes under way can send the later rows first (`RecordQueue.OverlapReorders`).
  `RecordQueue.OrderKept` says exactly when; nothing is lost either way (`RecordQueue.Conserved`).
- An edit taken back can come to another text (`EditReplacements.UntraceableExample`).
  `EditReplacements.UndoneExactly` says exactly when a replacement comes back.
- Two notices about one file stand for saves five minutes apart, and can be shown closer together by as
  long as the first claim took, and no closer (`EditWatcher.ShownSooner`, `EditWatcher.NoticesApart`).
- A batch file whose own path holds a tab or an equals sign is not run as itself by cmd.exe
  (`WindowsExec.DeliveredExactly`).

## Model

| member | source | states |
|---|---|---|
| Utf8.DecodeInvertsEncode | native/intercept/src/json.rs:206-218 | decoding bytes gives a text exactly when the bytes are that text's encoding, so the slices the parser takes between delimiters never fail to decode |
| Json.Quote | native/intercept/src/json.rs:40-57 | the loop appends the one literal JSON.stringify has for the text, whatever was in the buffer before |
| JsonParser.EncodePrefix | native/intercept/src/json.rs:90-97 | comparing bytes for a literal is comparing characters, on every text |
| JsonParser.RunBytes | native/intercept/src/json.rs:189-222 | where a scan over bytes for a quote or a backslash stops, the bytes passed are exactly the plain characters of the text, and decode to them |
| JsonParser.Hex4Bytes | native/intercept/src/json.rs:223-229 | four bytes that decode to hexadecimal digits are four characters that are, so slicing four bytes never cuts a character the parser accepts |
| JsonParser.Parser.Space | native/intercept/src/json.rs:84-88 | skips exactly the white space ahead |
| JsonParser.Parser.Literal | native/intercept/src/json.rs:90-97 | takes the word exactly where it is ahead |
| JsonParser.Parser.Number | native/intercept/src/json.rs:177-187 | hands the whole run of number characters ahead to the number reader |
| JsonParser.Parser.Hex4 | native/intercept/src/json.rs:223-229 | four digits ahead as their value, a leading plus included, with every index in bounds |
| JsonParser.Parser.Unicode | native/intercept/src/json.rs:231-245 | a surrogate pair ahead is joined, a lone half refused |
| JsonParser.Parser.Run | native/intercept/src/json.rs:189-222 | the plain characters ahead, as one decoded slice |
| JsonParser.Parser.Escape | native/intercept/src/json.rs:189-222 | the character the escape ahead stands for |
| JsonParser.Parser.String | native/intercept/src/json.rs:189-222 | the string ahead, the cursor advancing past exactly it |
| JsonParser.Parser.Value | native/intercept/src/json.rs:99-110 | the value ahead and the text it leaves, or a refusal, as read character by character; depth is restored on success |
| JsonParser.Parser.Nested | native/intercept/src/json.rs:112-120 | one level deeper, refused past sixteen |
| JsonParser.Parser.List | native/intercept/src/json.rs:122-142 | the rest of a list ahead |
| JsonParser.Parser.Object | native/intercept/src/json.rs:144-175 | the rest of an object ahead, the last of a repeated name winning |
| JsonParser.Parser.Fields | native/intercept/src/json.rs:144-175 | its members one after another, up to the brace that closes them |
| JsonParser.Parse | native/intercept/src/json.rs:59-69 | for every text, the byte cursor's answer is the character reader's: one value and nothing after it |
| JsonDoc.ReadSpelling | native/intercept/src/json.rs:189-245 | however each character of a string is spelled (plain, short escape, hexadecimal, surrogate pair), reading gives its characters |
| JsonDoc.RoundTrip | native/intercept/src/json.rs:59-245 | every text nested at most sixteen deep, however it is spaced and spelled, reads as what it means |
| JsonDepth.DepthExactly | native/intercept/src/json.rs:59-245 | a legal text reads as what it means where it is at most sixteen deep, and does not read at all where it is deeper |
| JsonDoc.QuotedIsPrinted | native/intercept/src/json.rs:40-57 | what `quote` writes is a legal spelling of its text, so it reads back as it |
| JsonTree.EveryTreeReads | native/intercept/src/json.rs:40-245 | every tree of null, booleans, whole numbers in range, texts, lists and objects at most sixteen deep has a text that reads back as the tree |
| Protocol.InterceptLine | native/intercept/src/protocol.rs:20-44 | the loops write the request's text |
| Protocol.LineIsRequest | native/intercept/src/protocol.rs:20-44 | that text is the request printed as a JSON document, followed by a line feed |
| Protocol.EnvFieldsExact | native/intercept/src/main.rs:123-135 | with distinct names the object read back is the environment: every variable under its own name, and no other |
| Protocol.RequestRoundTrip | native/intercept/src/protocol.rs:20-44 | parsing the line gives back the arguments, environment, directory and parent under id 1 and version 1 |
| Protocol.RequestIsOneLine | native/intercept/src/protocol.rs:20-44 | the line holds exactly one newline, its last character, whatever the arguments hold |
| Protocol.AnswerRoundTrip | native/intercept/src/protocol.rs:64-98 | however the daemon spells its answer, the wrapper acts on its plan, exactly unless it refuses with an exit code outside 1 to 255 |
| Protocol.PlanNeedsVersion | native/intercept/src/protocol.rs:64-90 | any plan but Node is in an answer to id 1 at version 1 that says all is well, and holds what the answer holds |
| Protocol.ActedReads | native/intercept/src/protocol.rs:47-49 | the line that says a plan was acted on reads as that |
| Protocol.RanReads | native/intercept/src/protocol.rs:51-56 | the line that says how a command ended reads as that, with its code |
| NativeIntercept.OneHandler | native/intercept/src/main.rs:55-120 | whatever the socket, the daemon and the child do, the command is started once and never handed to Node, or handed over once and never started, or refused and neither |
| NativeIntercept.StartNeedsAnswer | native/intercept/src/main.rs:67-163 | whatever is started is the file of an answer to id 1 at version 1 that says all is well, which is absolute, not this program and in no shims, with the arguments given and the answer's PATH |
| NativeIntercept.Wrapper.Environment | native/intercept/src/main.rs:123-135 | every variable as text and named once, or none |
| NativeIntercept.WholeLines | native/intercept/src/main.rs:137-145 | an answer is a whole line without the white space at its end; one cut short is none |
| NativeIntercept.Wrapper.Ask | native/intercept/src/main.rs:67-92 | the daemon is asked exactly where nothing about the command forbids it |
| NativeIntercept.Wrapper.Act | native/intercept/src/main.rs:94-119 | a plan's effects in order; nothing past a start falls back |
| NativeIntercept.Wrapper.Handle | native/intercept/src/main.rs:55-65 | the whole run's effects, in order |
| ShimPaths.RunnableExactly | native/intercept/src/main.rs:144-163 | an absolute path is started exactly where it is not the wrapper's own and the directory it is in is no `.memnox/bin`, told from the pieces between its slashes |
| ShimPaths.ShimsRefused | native/intercept/src/main.rs:151-163 | whatever home they are under and however many slashes and single dots are between, files in `.memnox/bin` are never started |
| WindowsExec.QuoteForWindows | packages/interceptors/src/windows-exec.ts:96-109 | the loop writes the argument as the C runtime's rule has it |
| WindowsExec.DeliversAll | packages/interceptors/src/windows-exec.ts:66-109 | after cmd.exe's two passes and the C runtime's split the file gets exactly its arguments; quote mode is never entered and only the separating spaces are seen live |
| WindowsExec.DeliveredExactly | packages/interceptors/src/windows-exec.ts:66-109 | the line delivers its file and arguments exactly when none holds a line break and the file's path holds no tab and no equals sign |
| WindowsExec.PlanCarriesLine | packages/interceptors/src/windows-exec.ts:66-81 | on Windows a file that ends in .cmd or .bat, in any case, is handed to cmd.exe as that line in one pair of quotes; any other, and any on another system, is started directly with its arguments |
| EditDistance.EditDistance | packages/cli/src/unknown-command.ts:41-57 | the two-row loop gives the Levenshtein recursion's value |
| EditDistance.ShortestScript | packages/cli/src/unknown-command.ts:41-57 | which is the cost of a shortest script of insertions, deletions and substitutions |
| EditDistance.ZeroOnlyForEqual | packages/cli/src/unknown-command.ts:41-57 | zero exactly for equal words |
| EditDistance.Symmetric | packages/cli/src/unknown-command.ts:41-57 | the same both ways |
| EditDistance.Triangle | packages/cli/src/unknown-command.ts:41-57 | no longer than by way of a third word |
| CodexPatch.CutSection | packages/interceptors/src/codex-patch.ts:104-197 | a section is read after everything before it and by its own lines alone |
| CodexPatch.PatchReader.Read | packages/interceptors/src/codex-patch.ts:104-127 | after each line the fields are what the sections so far come to |
| CodexPatch.PatchReader.ReadContent | packages/interceptors/src/codex-patch.ts:129-141 | a line of the change goes to the section it is in, or nowhere |
| CodexPatch.PatchReader.EndHunk | packages/interceptors/src/codex-patch.ts:156-170 | the hunk in progress becomes one replacement, or claims the whole file |
| CodexPatch.PatchReader.EndFile | packages/interceptors/src/codex-patch.ts:172-181 | the file in progress joins the list, and its source and destination both where it moves |
| CodexPatch.PatchReader.Done | packages/interceptors/src/codex-patch.ts:99-102 | every file touched, in order, but those named by an empty path |
| CodexPatch.ParsePatch | packages/interceptors/src/codex-patch.ts:199-203 | on every text the reader is the specification that cuts it at headers and reads each section alone, whose meaning `PatchRoundTrip` gives |
| CodexPatchRoundTrip.ReadOp | packages/interceptors/src/codex-patch.ts:60-197 | the lines of one well-formed add, update, delete or move are one section and read as its files |
| CodexPatchRoundTrip.PatchRoundTrip | packages/interceptors/src/codex-patch.ts:60-203 | writing any list of operations and reading it gives their files, in order, each with its change: an update its edits exactly where every hunk that adds also removes or keeps a line and one hunk does, and otherwise the whole file; an added file that moves, both ends; a file with no name, nothing |
| EditReplacements.AfterEdit | packages/interceptors/src/edit-hook.ts:99-109 | the loop's result is the replacements made in order, or none where one is not found |
| EditReplacements.BeforeEdit | packages/interceptors/src/agent-edits.ts:363-373 | the loop's result is them taken back, last first, or none where one cannot be |
| EditReplacements.UndoAll | packages/interceptors/src/agent-edits.ts:363-373 | where each replacement's new text cuts the new file into the pieces the old one was cut into, undoing gives the original |
| EditReplacements.UndoneExactly | packages/interceptors/src/agent-edits.ts:363-373 | one replacement is undone exactly where it cuts so, at the first place or, for something looked for, at every place |
| EditReplacements.UndoneStepByStep | packages/interceptors/src/agent-edits.ts:363-373 | a list of them comes back step by step exactly where each cuts so |
| EditReplacements.NullExactly | packages/interceptors/src/agent-edits.ts:363-373 | undoing comes to nothing exactly where at some step the text then held lacks what that step put in |
| EditReplacements.UntraceableExample | packages/interceptors/src/agent-edits.ts:363-373 | a first place that cuts otherwise, and the wrong text it comes back as |
| EditReplacements.ByLuck | packages/interceptors/src/agent-edits.ts:363-373 | replacing every place of nothing can cut otherwise and still come back |
| ShellAction.SubcommandAt | packages/interceptors/src/git-branch.ts:135-145 | the first word that is neither an option nor the value of one |
| ShellAction.Positional | packages/interceptors/src/git-branch.ts:53-62 | the words of a push that are neither options nor their values, in order |
| ShellAction.Pushed | packages/interceptors/src/git-branch.ts:43-78 | the branch resources of a push, each once |
| ShellAction.SpelledAlike | packages/interceptors/src/git-branch.ts:84-91 | a branch named short, in full, from any source, forced or deleted is one branch, and a tag is none |
| ShellAction.HeadSpelled | packages/interceptors/src/git-branch.ts:84-91 | and HEAD, however written, to the branch checked out |
| ShellWords.LineReads | packages/interceptors/src/git-branch.ts:53-62 | of every line made of options, options with values and plain words, the words read are the plain ones, in order |
| ShellWords.PushReads | packages/interceptors/src/git-branch.ts:43-62 | of every push so typed, with any options of git before it, the words are its remote and refspecs |
| ShellWords.NoNamedPush | packages/interceptors/src/git-branch.ts:43-51 | another subcommand, and a push of every ref, name no branch |
| ShellWords.TypedPushesMeet | packages/interceptors/src/git-branch.ts:43-91 | two pushes so typed of one branch to one remote are claimed as one, whatever options are among their words |
| ShellAction.PushesMeet | packages/interceptors/src/git-branch.ts:43-91 | any two lines that push one branch to the remote at one URL are filed under one resource, whatever options they have, however each names the remote and spells the branch, and wherever each runs |
| ShellAction.CommonPushes | packages/interceptors/src/git-branch.ts:43-91 | a forced push of the branch by name, from any source by name, or from any source in full is such a line |
| ShellAction.AskingIsInTheLine | packages/interceptors/src/shell-action.ts:71-154 | whether a line asks its checkout anything is in the line alone, and a line that asks nothing acts alike in every checkout |
| ShellAction.AsksExactly | packages/interceptors/src/shell-action.ts:133-154 | it asks exactly for a `gh` number whose repository it does not say, or a push of branches |
| ShellAction.NeverClaimed | packages/interceptors/src/fast-intercept.ts:317-330 | what `mayBeClaimed` rules out is claimed in no checkout |
| ShellClaims.PushersMeet | packages/interceptors/src/shell-action.ts:71-122 | two agents' pushes of one branch to one remote, unless ruled to be reads, are both claimed, and under one resource |
| ShellClaims.PushOfManyClaimed | packages/interceptors/src/shell-action.ts:98-108 | a push of several branches is claimed under the first of them that has a resource |
| ShellClaims.GhLinesMeet | packages/interceptors/src/shell-action.ts:71-160 | two `gh` lines that do something to one pull request or issue, each by URL or by number, are both claimed, and under one resource |
| ShellClaims.ReadsUnclaimed | packages/interceptors/src/shell-action.ts:110-122 | a read is never claimed |
| ShellClaims.OthersClaimed | packages/interceptors/src/shell-action.ts:110-127 | a request is claimed exactly where it sends something, another program's line exactly where its class changes what is outside, each under no resource |
| ShellClaims.UnfiledClaimed | packages/interceptors/src/shell-action.ts:98-154 | and so is a `git` or `gh` line that names nothing to file it under |
| FastIntercept.AncestorsOnlyAdd | packages/core/src/intercept/actor.ts:44-55 | ancestors never hide an agent the environment names, and decide alone where it names none |
| FastIntercept.SameDiscovery | packages/interceptors/src/fast-intercept.ts:282-292 | two environments look for a repository alike exactly where none of git's discovery variables differs |
| FastIntercept.Resolve | packages/interceptors/src/interceptor.ts:331-351 | the first place on PATH that holds the binary and is not ours, or none where none does |
| InterceptLookups.UnguardedExactly | packages/core/src/intercept/actor.ts:44-55 | a command is left unruled exactly where its home is not protected, or no variable and no ancestor's first two words say an agent is behind it |
| InterceptLookups.FindsExactly | packages/interceptors/src/interceptor.ts:331-351 | the file is the one in the first place on PATH that has it and is not ours, and none exactly where no place does or the name is our own |
| InterceptLookups.OwnName | packages/interceptors/src/interceptor.ts:99-109 | called by no name or its own, the interceptor only says how it is used |
| InterceptLookups.TheirsPicked | packages/interceptors/src/interceptor-cli.ts:333-364 | the PATH handed on is the one that came, in order, without empty places and ours |
| InterceptRulings.RulingExactly | packages/interceptors/src/interceptor.ts:111-172 | a command is let through exactly where there are no rules, they do not stop it, or they ask and the person says yes; a person is asked exactly where they ask and it stops; and each field of the outcome is what the rules said |
| InterceptRulings.RefusalSays | packages/interceptors/src/interceptor.ts:155-172 | a refusal says the person's words, or how it reads and what it rests on |
| InterceptRulings.LetThroughRuns | packages/interceptors/src/interceptor-cli.ts:210-331 | a command let through: refused and so recorded where another agent holds what it acts on; not recorded where it is not on PATH; else started, counted and recorded once each, after a checkpoint exactly where it destroys |
| InterceptRulings.MeetsAnother | packages/interceptors/src/interceptor-cli.ts:314-331 | a line claimed under a resource another agent holds is not started, fails, and is recorded as denied |
| InterceptRulings.GuardedRun | packages/interceptors/src/interceptor-cli.ts:88-244 | what a guarded command comes to on every machine: let through, that; not let through, one row that says it was denied, unless a person asked typed a command in its place that is itself let through |
| InterceptRulings.StartsWereLetThrough | packages/interceptors/src/interceptor-cli.ts:88-244 | whatever a guarded command starts, the rules let through |
| InterceptRulings.DeniedNeverStarts | packages/interceptors/src/interceptor.ts:155-172 | a command denied under a freeze, or in the mode that enforces, starts nothing, fails, and is recorded as denied with the rules' reason |
| InterceptRulings.UnguardedRun | packages/interceptors/src/interceptor-cli.ts:88-118 | a command nobody guards is started as it is and not recorded |
| InterceptRulings.HeldRun | packages/interceptors/src/interceptor-cli.ts:88-118 | a paused session is told so and nothing else is done |
| InterceptRulings.PlanExactly | packages/interceptors/src/fast-intercept.ts:103-280 | for a located command, which of the five plans it is, from whether it is guarded, held, and what the rules answer |
| FastIntercept.SameRuling | packages/interceptors/src/interceptor.ts:111-172 | a ruling nobody was asked for, whose target is protected from neither place, is the same from both and whoever would be asked |
| FastIntercept.RefusalIsPlain | packages/interceptors/src/interceptor.ts:133-172 | a refusal nobody was asked about has no advice, no replacement typed, and a message and a reason |
| FastIntercept.LocatedAlike | packages/interceptors/src/fast-intercept.ts:135-151 | a plan other than `node` is made for Node's home, PATH, file and repository |
| InterceptLookups.LocatedExactly | packages/interceptors/src/fast-intercept.ts:135-151 | the daemon plans exactly where it serves the home, no broker holds credentials, git looks where its own does, and the file is there |
| FastIntercept.PlainRun | packages/interceptors/src/interceptor-cli.ts:210-244 | what Node does around a command that is no browser, claims nothing and destroys nothing |
| FastIntercept.GovernedAlike | packages/interceptors/src/fast-intercept.ts:112-124 | for a ruled command, what the plan asks for is what Node does |
| FastIntercept.PlanIsNodesRun | packages/interceptors/src/fast-intercept.ts:103-280 | for every command line and machine, a plan other than `node` asks for Node's effects in Node's order: arguments, PATH, lines, report, and the row apart from times, with the file Node finds and its end told as Node tells it |
| FastPath.RequestIsScene | packages/cli/src/daemon/intercept-surface.ts:170-179 | the daemon plans for exactly the arguments, environment, directory and parent the wrapper has |
| FastPath.OthersUnheard | packages/cli/src/daemon/intercept-surface.ts:54-101 | a line that is no request of this version, or by no method of the three, leaves what is waited for as it was |
| FastPath.PlansSurvive | packages/cli/src/daemon/intercept-surface.ts:158-167 | every plan the planner makes is the plan the wrapper reads, however the answer is spelled |
| FastPath.FastCame | packages/cli/src/daemon/intercept-surface.ts:55-140 | what the wrapper's effects, and the daemon's at each of its lines and at a hang-up, come to together |
| FastPath.EndToldAlike | packages/core/src/domain/exit-code.ts:42-66 | Node and the wrapper tell a command's end alike exactly where it has a code of its own, or a signal with no number |
| FastPath.FastIsNode | native/intercept/src/main.rs:67-195 | for every command line, machine and loss on the way, the fast path does what Node would have done (file, arguments, PATH, lines, report, row apart from times, exit code) exactly where it hands over, or Node's lookup finds the daemon's file, the end is told alike, and the lines that keep the row, count the command and say what the breaker called arrive |
| FastPath.PresentDiffers | packages/interceptors/src/fast-intercept.ts:148 | a file that is there and may not be run: the daemon has it started, and Node finds none |
| FastPath.SignalDiffers | native/intercept/src/main.rs:166-177 | a command a numbered signal ends: the wrapper exits 1, Node 128 and the number |
| FastPath.UnstartedDiffers | packages/interceptors/src/interceptor-cli.ts:350-364 | a command that will not start: Node says so and exits 127, 126 or 1; the wrapper says nothing and exits 1 |
| FastPath.LostReport | packages/cli/src/daemon/intercept-surface.ts:82-90 | a report that is lost: the daemon keeps a row without a code, or none, and counts nothing |
| FastPathRuns.SignalledRun | packages/core/src/domain/exit-code.ts:42-66 | a machine on which a signal, any numbered one, ends the command, and the two exit codes |
| FastPathRuns.UnstartedRun | packages/interceptors/src/interceptor-cli.ts:356-359 | a machine on which the command's file will not start, for any reason, and all that each of the two does |
| FastPathRuns.PresentRun | packages/interceptors/src/fast-intercept.ts:148 | a machine on which the command's file may not be run |
| FastPathRuns.UnreportedRun | native/intercept/src/main.rs:99-119 | a machine on which the report is lost, and the row that is left |
| InterceptorCli.Interceptor.Intercept | packages/interceptors/src/interceptor-cli.ts:88-118 | the interceptor's effects, one after another, are the reference run's |
| InterceptorCli.Interceptor.Refuse | packages/interceptors/src/interceptor-cli.ts:155-183 | a refusal printed and recorded, or a typed replacement ruled on from the start |
| InterceptorCli.Interceptor.HandAndRecord | packages/interceptors/src/interceptor-cli.ts:210-244 | refused where another agent has it; else kept, advised, run, reported and recorded, in that order |
| InterceptorCli.Interceptor.FindReal | packages/interceptors/src/interceptor.ts:331-351 | the loop along PATH finds the same file |
| InterceptorCli.PlanFor | packages/interceptors/src/fast-intercept.ts:103-253 | the planner, its notes pushed as they come, gives the plan compared with Node's run |
| FirewallInvariants.StepKeeps | packages/proxy/src/firewall-session.ts:161-238 | every step keeps every client message in one place, with the ruling its verdict gives it |
| FirewallInvariants.RunKeeps | packages/proxy/src/firewall-session.ts:161-238 | and so does every run, whatever order the handlers' steps come in |
| FirewallOutcomes.OnePlace | packages/proxy/src/firewall-session.ts:161-238 | each client message is at all times in exactly one place and there once: under way, written, answered, passed over, or lost to a throw |
| FirewallOutcomes.OneDecision | packages/proxy/src/firewall-session.ts:216-238 | a verdict is on record exactly where one step of the run gave it, and no call is given two |
| FirewallOutcomes.WrittenWasAllowed | packages/proxy/src/firewall-session.ts:161-238 | no tools/call reaches the server, alone or in a batch, but one the filter shows and the rules or a person allowed, and none denied it |
| FirewallOutcomes.CallFate | packages/proxy/src/firewall-session.ts:161-238 | a finished call was written once or answered once, never both; denied, it was answered, or by nothing where it is a notification |
| FirewallOutcomes.NotificationsUnanswered | packages/proxy/src/firewall-session.ts:381-401 | nothing is ever said back to a notification |
| FirewallRecord.StepRecord | packages/proxy/src/firewall-session.ts:224-238 | a step keeps every ruled call open or recorded once exactly where it lets none out under an id still open |
| FirewallRecord.Conserved | packages/proxy/src/firewall-session.ts:206-334 | throughout a run every ruled call is in exactly one of the two, exactly where live ids are distinct |
| FirewallRecord.ReusedId | packages/proxy/src/firewall-session.ts:224-231 | a run that reuses a live id, and the call it loses |
| FirewallRecord.ClosedOnlyByAnswer | packages/proxy/src/firewall-session.ts:284-334 | a server line closes an open call exactly where it answers its id; a message with a method never does |
| FirewallRecord.NotesHandedOnce | packages/proxy/src/firewall-session.ts:132-159 | in every run the notes handed over and those waiting are the notes collected, in order |
| FirewallRecord.CollectsExactly | packages/proxy/src/firewall-session.ts:132-144 | notes are being collected exactly from an allowed call, where they are asked for, until a collection ends |
| FirewallRecord.ResultShownWhole | packages/proxy/src/firewall-session.ts:320-334 | a result's blocks are all shown, in order, framed exactly where they read like instructions, with the waiting notes after them |
| FirewallRecord.VisibleAre | packages/proxy/src/firewall-session.ts:369-376 | a listing shows exactly the tools the filter lets through, as often as listed |
| FirewallListings.ListingShown | packages/proxy/src/firewall-session.ts:301-313 | a response to a listing asked for is shown with exactly the tools the filter lets through, in order and as often as listed, and nothing else of it changed |
| FirewallListings.LineFilters | packages/proxy/src/firewall-session.ts:284-313 | and so it is wherever in a server line it comes |
| FirewallListings.StepLists | packages/proxy/src/firewall-session.ts:184-200 | a listing's id is remembered exactly from the step that rules on it until a server line answers it |
| FirewallListings.ListingsFiltered | packages/proxy/src/firewall-session.ts:184-376 | in every run, whatever comes between, the first answer to a listing a client asked for is shown filtered |
| FirewallRecord.OthersPass | packages/proxy/src/firewall-session.ts:301-318 | anything that answers no listing and no open call changes nothing and passes as it is |
| FirewallProxy.Session.FromClient | packages/proxy/src/firewall-session.ts:161-200 | a line up to its first wait is the machine's arrival |
| FirewallProxy.Session.RuleOnNext | packages/proxy/src/firewall-session.ts:184-214 | the loop over a batch goes as far as its next call, remembering each listing asked for |
| FirewallProxy.Session.Send | packages/proxy/src/firewall-session.ts:163-200 | what a finished line writes, answers and passes over |
| FirewallProxy.Session.Dropped | packages/proxy/src/firewall-session.ts:381-401 | what a server that takes nothing leaves to be answered here, and what it does not |
| FirewallProxy.Session.VerdictFor | packages/proxy/src/firewall-session.ts:216-223 | the rules' answer: decided, or a person asked where one can be |
| FirewallProxy.Session.RuleOnCall | packages/proxy/src/firewall-session.ts:224-238 | an allowed call opens or is recorded at once; a denied one is recorded |
| FirewallProxy.Session.ReplyFor | packages/proxy/src/firewall-session.ts:301-334 | one server message's whole effect on the session, and what is shown of it |
| FirewallProxy.Session.FromServer | packages/proxy/src/firewall-session.ts:284-298 | a server line, message by message |
| FirewallProxy.Session.WithNotes | packages/proxy/src/firewall-session.ts:147-159 | the waiting notes as one more block, and none waiting after |
| FirewallProxy.Session.NotesFound | packages/proxy/src/firewall-session.ts:132-144 | what a collection found waits in order, and the next may begin |
| DuplicateWork.ReleasedOnce | packages/proxy/src/duplicate-work.ts:40-137 | in every run, whatever is settled, each keeper started runs or was let go exactly once, and what is being let go is waited for until done |
| DuplicateWork.SettleCounts | packages/proxy/src/duplicate-work.ts:79-89 | a settle keeps every count exactly where its call holds its claim or nothing runs under it |
| DuplicateWork.KeptWhileHeld | packages/proxy/src/duplicate-work.ts:56-137 | throughout a run a keeper runs exactly while a call holds it, counting those calls, exactly where every settle is such a one |
| DuplicateWork.LastCallReleases | packages/proxy/src/duplicate-work.ts:79-89 | a holding call's settle lets the keeper go exactly where it is the last |
| DuplicateWork.UnansweredCallReleasesAnother | packages/proxy/src/duplicate-work.ts:56-89 | a run in which a call that holds nothing lets go of another's keeper |
| DuplicateWork.CloseBegins | packages/proxy/src/duplicate-work.ts:95-102 | a close leaves nothing running and counts every release ever begun |
| DuplicateWork.CloseWaits | packages/proxy/src/duplicate-work.ts:95-111 | a close that returns finds every release begun before it finished |
| DuplicateWork.FinishedExactly | packages/proxy/src/duplicate-work.ts:95-122 | a release is counted as done, or as failed, exactly where it came out so |
| DuplicateWork.ClosesOnce | packages/proxy/src/duplicate-work.ts:95-111 | a close returns or fails once |
| DuplicateWork.SettledHoldsNothing | packages/proxy/src/duplicate-work.ts:79-89 | a settled call holds nothing after, and no other call loses what it holds |
| DuplicateWork.DuplicateWorkAuthorizer.Authorize | packages/proxy/src/duplicate-work.ts:56-72 | a claim's answer: held where ours, let go where unknown, refused otherwise |
| DuplicateWork.DuplicateWorkAuthorizer.HoldFor | packages/proxy/src/duplicate-work.ts:125-136 | one more call on the keeper in place, or a new keeper |
| DuplicateWork.DuplicateWorkAuthorizer.SettleCall | packages/proxy/src/duplicate-work.ts:79-89 | one call fewer, and the keeper let go with the last |
| DuplicateWork.DuplicateWorkAuthorizer.CloseAll | packages/proxy/src/duplicate-work.ts:95-102 | every keeper let go once, and all that is being let go waited for |
| ProxyClaims.NextFits | packages/proxy/src/firewall-session.ts:216-334 | every step of the session and its claims together keeps both, and no call is claimed twice |
| ProxyClaims.RunFits | packages/proxy/src/firewall-session.ts:216-334 | every state of every run of the session and its claims together keeps both: no call is claimed twice, and only one claimed holds |
| ProxyClaims.Projects | packages/proxy/src/duplicate-work.ts:56-137 | what the claims are told in such a run is a run of theirs, which passes through the claims of every state of the session in turn, with the calls settled by then |
| ProxyClaims.KeptThroughout | packages/proxy/src/duplicate-work.ts:56-137 | through the whole of it, at each state and between the results of one line, a keeper runs exactly while a call holds it, exactly where each call settled held its claim or found nothing running |
| ProxyClaims.AskedOfWorkspace | packages/proxy/src/duplicate-work.ts:56-72 | the workspace is asked about exactly the calls the rules allow, of tools the filter shows, with something to claim; a claim of ours, and no answer, let them out |
| ProxyClaims.PersonClaimsNothing | packages/proxy/src/firewall-session.ts:221-231 | a call a person lets out is open and holds no claim |
| ProxyClaims.UnheldReplyReleases | packages/proxy/src/firewall-session.ts:320-324 | the result of a call that holds none lets go of the keeper of the one call that holds its fingerprint |
| ProxyClaims.PersonLetsOut | packages/proxy/src/firewall-session.ts:216-324 | a run from the start in which one does |
| ArgsDigest.SameText | packages/guard/src/guard.ts:575-578 | two calls' arguments are written alike exactly where they are the same once the members below the top under no name at the top are left out |
| ArgsDigest.OwnText | packages/guard/src/guard.ts:575-578 | arguments that have no such members are written alike only where they are equal |
| ArgsDigest.NestedLost | packages/guard/src/guard.ts:575-578 | whatever two arguments hold under a name below another, they are written alike |
| Guard.Strictest | packages/guard/src/guard.ts:287-303 | one of the requests, with its own effect, and no request is ruled on more strictly |
| Guard.StepSound | packages/guard/src/guard.ts:141-206 | a step gives each new allowed decision a cause and each new grant an accepted yes for the session, and leaves what was decided be |
| GuardRuns.RunStages | packages/guard/src/guard.ts:141-206 | every call is being checked or decided, never both |
| GuardRuns.DecidedForGood | packages/guard/src/guard.ts:141-206 | once decided, a call stays decided as it was |
| GuardRuns.AllowedCaused | packages/guard/src/guard.ts:141-206 | every allowed call has, at the step that decided it, nothing ruled on, every request allowed, a grant held, or an accepted answer bound to it |
| GuardRuns.GrantBefore | packages/guard/src/guard.ts:191-205 | a call allowed by a grant follows a step that accepted a yes for the session under the same key |
| GuardRuns.PersonSaidYes | packages/guard/src/guard.ts:305-431 | a call allowed by a person: the answer names the question raised for it and its argument digest, over a request the rules asked about, none being denied |
| GuardRuns.DeniedForGood | packages/guard/src/guard.ts:168-190 | a call with a denied request is refused then and ever after, whatever has been granted |
| GuardRuns.PausedForGood | packages/guard/src/guard.ts:148-157 | a call whose pause check finds an unlifted pause is refused, or on its way to it, ever after |
| GuardRuns.OnlyABreachReplaces | packages/guard/src/guard.ts:250-271 | a session's pause stays the one it was however often asked about, unless it is set anew |
| GuardPauses.LiftedExactly | packages/guard/src/guard.ts:245-271 | a step ends a session's pause exactly where it is a resume of the session or the plane's yes about it |
| GuardPauses.PausedExactly | packages/guard/src/guard.ts:245-271 | and begins one exactly where it is a breach |
| GuardPauses.AnswerHeeded | packages/guard/src/guard.ts:250-271 | a plain yes lets the call go on; a no, and no answer, leave it facing the pause and the session paused as it was |
| GuardPauses.BreachHolds | packages/guard/src/guard.ts:146-157 | from a breach until it is lifted, every call of the session that looks for a pause finds one |
| GuardAnswers.RuledExactly | packages/guard/src/guard.ts:148-202 | past its pause check a call is let go, refused or asked about exactly as its requests are ruled on: denied by any, allowed by all, or by the first asked about, granted or put to a person for as long as is set |
| GuardAnswers.RaisedExactly | packages/guard/src/guard.ts:305-352 | a question that was raised is waited for while there is time left |
| GuardAnswers.WaitsExactly | packages/guard/src/guard.ts:330-352 | and asked about again until it is answered, expires or time is out |
| GuardAnswers.AnswerExactly | packages/guard/src/guard.ts:354-431 | an answer is heeded exactly where it need not be signed, or is signed for this question, answer and argument digest by the first key of its name, and waits for keys exactly where that key is not known; a yes for the session grants, and nothing else does |
| GuardAnswers.FetchedExactly | packages/guard/src/guard.ts:433-443 | with the keys fetched, it is heeded exactly where its signature holds under one of them |
| GuardAnswers.InForce | packages/guard/src/guard.ts:433-461 | the rules in force are those last taken and the keys those last fetched, whatever any check does in between |
| GuardRuns.LiftsTheOneAskedAbout | packages/guard/src/guard.ts:250-271 | from a question about a pause to the yes that lifts one, the pause lifted is the one asked about exactly where no breach of the session came between |
| GuardRuns.NewerPauseLifted | packages/guard/src/guard.ts:250-271 | a run in which one did |
| GuardRuns.BoundAlike | packages/guard/src/guard.ts:354-431 | a signed answer bound to one call is bound to another exactly where the arguments of the two are written alike so |
| GuardRuns.AskedOnceAWindow | packages/guard/src/guard.ts:250-265 | while one pause stays, the plane is asked about it at most once in ten seconds |
| GuardRuns.RecordedOnce | packages/guard/src/guard.ts:498-549 | every decision is on the record exactly once, as given, and every session's start once |
| GuardRuns.GrantKeyExact | packages/guard/src/guard.ts:580-582 | where names hold no NUL, a grant is shared exactly by one session's requests of one action and target |
| GuardCheck.CloudGuard.RulesReady | packages/guard/src/guard.ts:146-148 | the session noted and its pause looked up, asked about at most once a window |
| GuardCheck.CloudGuard.ResumedSince | packages/guard/src/guard.ts:250-271 | only a plain yes lifts the pause |
| GuardCheck.CloudGuard.RuleOn | packages/guard/src/guard.ts:149-202 | the pause, the rules and the grants, in that order |
| GuardCheck.CloudGuard.StatusReplied | packages/guard/src/guard.ts:330-352 | an answer weighed, a wait gone on with, or a refusal for want of one |
| GuardCheck.CloudGuard.PersonAnswered | packages/guard/src/guard.ts:354-431 | an answer is believed only signed for this question, this answer and this argument digest |
| GuardCheck.CloudGuard.KeysReplied | packages/guard/src/guard.ts:433-443 | an unknown key fetched and then checked, or the answer not trusted |
| GuardCheck.CloudGuard.Outcome | packages/guard/src/guard.ts:212-243 | a breach pauses the session and is recorded |
| RecordQueue.Conserved | packages/guard/src/guard.ts:274-285 | through any overlap of flushes and any failures, produced is pending plus in flight plus accepted as multisets, each batch from 1 to 100 rows |
| RecordQueue.OrderKept | packages/guard/src/guard.ts:274-285 | throughout a run of distinct rows, accepted, then in flight, then pending, is the produced sequence exactly where each batch that goes through was the oldest in flight and each that fails the newest |
| RecordQueue.SentInOrder | packages/guard/src/guard.ts:274-285 | so it is where no flush starts while another is under way |
| RecordQueue.OverlapReorders | packages/guard/src/guard.ts:274-285 | a run, from nothing, in which later rows go first |
| RecordQueue.Queue.Replied | packages/guard/src/guard.ts:274-285 | a sent batch is followed by the next, a failed one put back in front |
| RecordQueue.Queue.FlushAll | packages/guard/src/guard.ts:274-285 | an undisturbed flush loses and reorders nothing, and stops only at the end or at the first failed send |
| EditWatcher.AtMostSixty | packages/cli/src/edit-watcher.ts:129-132 | in every run no interval of one minute has more than sixty claims |
| EditWatcher.PutOffExactly | packages/cli/src/edit-watcher.ts:129-132 | a save is put off exactly where sixty claims were made in the minute before it |
| EditWatcher.NoticedExactly | packages/cli/src/edit-watcher.ts:134-153 | a save is noticed exactly where another had the lines and no notice about the file stands for a save less than five minutes before |
| EditWatcher.NoticesApart | packages/cli/src/edit-watcher.ts:129-153 | notices about one file stand for saves five minutes apart, and are shown that far apart less what the first claim took |
| EditWatcher.ShownSooner | packages/cli/src/edit-watcher.ts:134-153 | and no more than that: a run for every such delay |
| EditWatcher.Watcher.Handle | packages/cli/src/edit-watcher.ts:129-134 | the window filtered, and the save claimed or put off |
| EditWatcher.Watcher.Notify | packages/cli/src/edit-watcher.ts:141-153 | a notice, unless one about the file stands for a save less than five minutes before |
| ConfigWatch.NoChangeLost | packages/cli/src/config-watch.ts:68-112 | of the calls that return after a change, at most one returns false before one returns true |
| ConfigWatch.NextCallTells | packages/cli/src/config-watch.ts:68-81 | a call that begins after an untold change settles at once and returns true |
| ConfigWatch.WokenCallTells | packages/cli/src/config-watch.ts:68-108 | a call that waits when a change comes settles as soon as it goes on |
| ConfigWatch.OursExactly | packages/cli/src/config-watch.ts:31-36 | changes in our own directory, and only those, are passed over |
| ConfigWatch.NeverMoreTrues | packages/cli/src/config-watch.ts:68-112 | never more true results than changes |
| ConfigWatch.DirectoryWatch.TouchedAt | packages/cli/src/config-watch.ts:87-95 | a change that is not our own is kept and wakes a waiting call |
| ConfigWatch.DirectoryWatch.Call | packages/cli/src/config-watch.ts:68-81 | a pending change is taken at once, else the call waits |
| ConfigWatch.DirectoryWatch.WaitOver | packages/cli/src/config-watch.ts:68-81 | a woken call settles, and one out of time returns false |

## Left out

- The number reader is a parameter asked only to read whole decimal numbers below 9.0e15 exactly; other numbers, and what malformed ones it takes, are Rust's.
- JsonParser.Parser.Hex4: takes a leading plus, as `from_str_radix` does; the model says so and does not claim the parser accepts exactly JSON.
- Recovery from Rust panics, timeouts as durations, and signals: a read, a write or a child that fails is an input.
- NativeIntercept.StartNeedsAnswer: the path check is the wrapper's own, by components; a path with `..` in it is compared as written, as the wrapper does.
- FastPath.FastIsNode: both sides see one picture of the machine, a file told to start comes to one end from both, and the daemon's own HOME is the home it serves.
- An environment that spells PATH only in another case, Windows path lookup, and what the child's environment holds besides PATH.
- Rule matching, the verb table, task scopes, leases, evidence and the wording of refusals: functions of what they are asked, or inputs of a step.
- ShellAction.AskingIsInTheLine: the patterns for URLs, repository names and branch resources are parameters, and so are the names JavaScript objects inherit, which the source's tables would find.
- cmd.exe's `%name%` expansion, delayed expansion, and what a batch file does with its arguments besides handing them on.
- Lone surrogates: texts are sequences of characters, except in `EditReplacements`, which takes any units, and `EditDistance`, which takes code units.
- Raw lines that are not JSON, the bytes of a batch, and JSON-RPC fields besides the id, the method, the call and the reply: the session's items are already parsed.
- FirewallOutcomes.OnePlace: an authorizer or a hold that throws takes the rest of its line with it, so its messages are neither written nor answered; they are counted as lost to a throw, as in the code.
- A client's own response that a gone server cannot take is answered like a request, as in the code, since it carries an id.
- EditReplacements.UndoneStepByStep: exact for a first place, and for every place of something; every place of nothing can come back by luck, as an example shows, and nothing more is said of it.
- How the guard fetches and checks its rules and keys in the background: between any two steps either may change to anything.
- Guard.StepSound: an accepted answer and the grant it gives are one step, where the code has a microtask between them.
- The breaker's thresholds: a breach is an input. Timers and waits are inputs with the time they come at.
- EditWatcher.AtMostSixty: a clock that never goes back, as asked of its callers.
- RecordQueue.OrderKept: rows are taken to be distinct, as the key each carries makes them.
- GuardRuns.LiftsTheOneAskedAbout: breaches are taken to be later than the pause asked about, so that the time of a pause tells it apart.
- ArgsDigest.SameText: the order names are sorted in, how a number is written and the hash are parameters; arguments are JSON values, and a name JavaScript objects inherit is an object's only where it is its own.
- A send that failed is taken not to have been accepted; the plane's deduplication is not part of this model.
- `native/noise`, egress, installers, health checks, host-specific payloads and reply texts.
