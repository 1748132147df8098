/** What the interceptor looks up before any rule is asked: whether an agent is behind a command, which file
    is meant, and which variables say where git looks. */
module InterceptLookups {
  import opened Basics
  import opened ShellAction
  import opened FastIntercept

  // ---------------------------------------------------------------- who is behind a command

  /** A variable by which an agent says it is one. */
  ghost predicate SaysAgent(env: Environment) {
    exists name :: name in env && env[name] != "" && name in
      {"MEMNOX_SESSION", "MEMNOX_AGENT_NAME", "CLAUDECODE", "AI_AGENT", "CODEX_SANDBOX", "CURSOR_AGENT", "GEMINI_CLI"}
  }

  /** A process whose first word, or second where an interpreter comes first, is an agent's program. */
  ghost predicate IsAgent(w: World, argv: seq<string>) {
    exists i :: 0 <= i < 2 && i < |argv| && w.lookup.executableName(argv[i]) in
      {"claude", "codex", "cursor-agent", "gemini", "aider", "goose", "opencode", "hermes", "openclaw", "ruflo"}
  }

  lemma {:induction false} MarkerExactly(env: Environment, names: seq<string>)
    ensures Marker(env, names).Some? <==> exists name :: name in names && name in env && env[name] != ""
    ensures Marker(env, names).Some? ==>
      Marker(env, names).value in names && ValueOf(env, Marker(env, names).value) != ""
  {
    if names != [] {
      MarkerExactly(env, names[1..]);
    }
  }

  lemma {:induction false} AmongExactly(w: World, ancestors: seq<seq<string>>)
    ensures AgentAmong(w, ancestors).Some? <==> exists argv :: argv in ancestors && IsAgent(w, argv)
  {
    if ancestors != [] {
      AmongExactly(w, ancestors[1..]);
      InExactly(w, ancestors[0]);
      hide IsAgent;
      hide AgentIn;
    }
  }

  lemma InExactly(w: World, argv: seq<string>)
    ensures AgentIn(w, argv).Some? <==> IsAgent(w, argv)
  {
    if |argv| > 0 && w.lookup.executableName(argv[0]) in AGENTS {
      assert IsAgent(w, argv);
    } else if |argv| > 1 && w.lookup.executableName(argv[1]) in AGENTS {
      assert IsAgent(w, argv);
    }
  }

  /** A command is left unruled exactly where the home is not protected, or no variable and no ancestor
      says that an agent is behind it. */
  lemma UnguardedExactly(w: World, s: Scene, home: string)
    ensures Unguarded(w, s, home) <==>
      w.memory.stopped(home)
      || (!SaysAgent(s.env) && forall argv | argv in w.lookup.ancestors(s.ppid) :: !IsAgent(w, argv))
  {
    MarkerExactly(s.env, MARKERS);
    AmongExactly(w, w.lookup.ancestors(s.ppid));
    hide IsAgent;
    hide Marker;
    hide AgentAmong;
  }

  // ---------------------------------------------------------------- which command and which file

  /** Called by its own name, or by none, the interceptor says how it is used and does nothing else. */
  lemma OwnName(w: World, s: Scene)
    ensures s.argv == [] || w.lookup.baseName(s.argv[0]) == "memnox-intercept" ==>
      NodeMain(w, s) == Run([Say(Usage())], 2)
    ensures !(s.argv == [] || w.lookup.baseName(s.argv[0]) == "memnox-intercept") ==>
      InvokedFor(w, s.argv) == Some((w.lookup.baseName(s.argv[0]), s.argv[1..]))
  {
    hide NodeFor;
    hide HomeOf;
    hide Usage;
  }

  /** A place on PATH that has the file, and is not the interceptor's own. */
  predicate Has(w: World, found: string -> bool, binary: string, entry: string) {
    entry != "" && found(w.lookup.join(entry, binary)) && !w.lookup.isSelf(w.lookup.join(entry, binary))
  }

  /** The first of some places that has it. */
  ghost predicate FirstAmong(w: World, found: string -> bool, binary: string, entries: seq<string>, k: nat) {
    && k < |entries| && Has(w, found, binary, entries[k])
    && forall i | 0 <= i < k :: !Has(w, found, binary, entries[i])
  }

  lemma {:induction false} FirstHas(w: World, found: string -> bool, binary: string, entries: seq<string>, k: nat)
    requires FirstAmong(w, found, binary, entries, k)
    ensures Resolve(w, found, binary, entries) == Some(w.lookup.join(entries[k], binary))
  {
    if k > 0 {
      assert !Has(w, found, binary, entries[0]);
      forall i | 0 <= i < k - 1 ensures !Has(w, found, binary, entries[1..][i]) {
        assert entries[1..][i] == entries[i + 1];
      }
      FirstHas(w, found, binary, entries[1..], k - 1);
    }
  }

  /** The file meant is the one in the first place on PATH that has it; there is none exactly where no place
      has it, or the name is the interceptor's own. */
  lemma FindsExactly(w: World, found: string -> bool, binary: string, path: string)
    ensures var entries := Split(path, ':');
      match ResolveReal(w, found, binary, path)
      case None => w.lookup.isSelf(binary) || forall e | e in entries :: !Has(w, found, binary, e)
      case Some(file) =>
        && !w.lookup.isSelf(binary)
        && exists k: nat :: FirstAmong(w, found, binary, entries, k) && file == w.lookup.join(entries[k], binary)
  {
    var entries := Split(path, ':');
    hide Split;
    if ResolveReal(w, found, binary, path).Some? {
      var k := FirstPlace(w, found, binary, entries);
      FirstHas(w, found, binary, entries, k);
    }
  }

  lemma {:induction false} FirstPlace(w: World, found: string -> bool, binary: string, entries: seq<string>)
    returns (k: nat)
    requires Resolve(w, found, binary, entries).Some?
    ensures FirstAmong(w, found, binary, entries, k)
  {
    if Has(w, found, binary, entries[0]) {
      k := 0;
    } else {
      var later := FirstPlace(w, found, binary, entries[1..]);
      k := later + 1;
      forall i | 0 <= i < k ensures !Has(w, found, binary, entries[i]) {
        assert i > 0 ==> entries[i] == entries[1..][i - 1];
      }
    }
  }

  /** The PATH a command is given: the places on the one it came with, in order, but for the empty ones and
      our own. */
  lemma {:induction false} TheirsPicked(w: World, entries: seq<string>, home: string) returns (at: seq<nat>)
    ensures Picks(e => e != "" && !w.lookup.isOurs(e, home), entries, Theirs(w, entries, home), at)
  {
    if entries == [] {
      at := [];
    } else {
      var rest := TheirsPicked(w, entries[1..], home);
      hide Picks;
      at := PicksMore(e => e != "" && !w.lookup.isOurs(e, home), entries, Theirs(w, entries[1..], home), rest);
    }
  }

  // ---------------------------------------------------------------- where git looks

  /** The daemon plans for a command exactly where it serves the command's home, no broker holds its
      credentials, git would look where the daemon's does, and the file is there on PATH. */
  lemma LocatedExactly(w: World, d: Daemon, s: Scene)
    ensures Locate(w, d, s).Some? <==>
      && s.argv != [] && w.lookup.baseName(s.argv[0]) != "memnox-intercept"
      && "HOME" in s.env && s.env["HOME"] == d.home
      && ("MEMNOX_CREDENTIAL_BROKER" in s.env ==> s.env["MEMNOX_CREDENTIAL_BROKER"] == "")
      && Discovery(s.env) == Discovery(d.env)
      && ResolveReal(w, w.lookup.present, w.lookup.baseName(s.argv[0]), RealPath(w, PathOf(s.env), d.home)).Some?
  {
    SameDiscovery(s.env, d.env);
    hide Discovery;
    hide FindsRepositoryElsewhere;
    hide RealPath;
    hide ResolveReal;
  }

  /** The variables git finds a repository and its configuration by. */
  lemma DiscoveryVariables()
    ensures forall name | name in
      {"GIT_DIR", "GIT_WORK_TREE", "GIT_COMMON_DIR", "GIT_CEILING_DIRECTORIES", "GIT_DISCOVERY_ACROSS_FILESYSTEM",
       "XDG_CONFIG_HOME", "GIT_CONFIG", "GIT_CONFIG_GLOBAL", "GIT_CONFIG_COUNT", "GIT_CONFIG_KEY_0"} ::
      IsDiscovery(name)
    ensures forall name | name in {"HOME", "PATH", "PWD", "GIT_EDITOR", "GIT_AUTHOR_NAME"} :: !IsDiscovery(name)
  {
    assert "GIT_EDITOR"[4] == 'E' && "GIT_AUTHOR_NAME"[4] == 'A' && "GIT_CONFIG"[4] == 'C';
  }
}
