/** The commands ftown installs as hooks, and by which words in them it knows earlier ones.

    The commands hold the home directory, and the words are looked for anywhere in them. So
    the three hooks are told apart only in homes whose path does not hold the wrong words;
    elsewhere one of them takes another's place. */
module HookCommands {
  import opened HookInstaller
  import opened Results

  const HARNESS: string := "ftown-harness"
  const PUMP: string := "hook-pump"
  const ASK: string := "ask-hook"
  const NOTIFY_TAIL: string := "/.ftown/notify.sh"

  predicate IncludesAt(s: string, part: string, i: nat) {
    i + |part| <= |s| && s[i..i + |part|] == part
  }

  predicate Includes(s: string, part: string) {
    exists i :: 0 <= i <= |s| && IncludesAt(s, part, i)
  }

  predicate EndsWith(s: string, part: string) {
    |part| <= |s| && s[|s| - |part|..] == part
  }

  predicate IsNotify(command: string) {
    && EndsWith(command, "notify.sh")
    && (Includes(command, ".ftown/") || Includes(command, "/ftown/bridge/hooks/") || EndsWith(command, "/hooks/notify.sh"))
  }

  predicate IsMailPump(command: string) {
    Includes(command, HARNESS) && Includes(command, PUMP)
  }

  predicate IsAskHook(command: string) {
    Includes(command, HARNESS) && Includes(command, ASK)
  }

  /** A script of the user's that is called notify.sh too is not taken for the notifier; those
      in ftown's directories, or in any directory for hooks, are. */
  lemma NotifiersAreOurs()
    ensures IsNotify("/home/me/.ftown/notify.sh") && IsNotify("/x/hooks/notify.sh")
    ensures IsNotify("/x" + "/ftown/bridge/hooks/" + "my-notify.sh")
    ensures !IsNotify("/home/me/notify.sh") && !IsNotify("/home/me/.ftown/other.sh")
  {
    OursByDirectory();
    OursByHooks();
    OursByBridge();
    TheirsIsTheirs();
    assert "/home/me/.ftown/other.sh"[15..][0] == '/';
  }

  lemma OursByDirectory()
    ensures IsNotify("/home/me/.ftown/notify.sh")
  {
    var s := "/home/me/.ftown/notify.sh";
    assert s[9..16] == ".ftown/" && IncludesAt(s, ".ftown/", 9);
    assert s[16..] == "notify.sh";
  }

  lemma OursByHooks()
    ensures IsNotify("/x/hooks/notify.sh")
  {
    var s := "/x/hooks/notify.sh";
    assert s[2..] == "/hooks/notify.sh" && s[9..] == "notify.sh";
  }

  lemma OursByBridge()
    ensures IsNotify("/x" + "/ftown/bridge/hooks/" + "my-notify.sh")
  {
    var part, name := "/ftown/bridge/hooks/", "my-notify.sh";
    IncludesItself(part);
    IncludesRight("/x", part, part);
    IncludesLeft("/x" + part, name, part);
    var s := "/x" + part + name;
    assert name[3..] == "notify.sh" && s[|s| - 9..] == name[3..];
  }

  lemma TheirsIsTheirs()
    ensures !IsNotify("/home/me/notify.sh")
  {
    var s := "/home/me/notify.sh";
    forall i: nat ensures !IncludesAt(s, ".ftown/", i) { NotAt(s, ".ftown/", i, if i == 15 then 1 else 0); }
    forall i: nat ensures !IncludesAt(s, "/ftown/bridge/hooks/", i) {
      NotAt(s, "/ftown/bridge/hooks/", i, if i == 0 || i == 5 || i == 8 then 1 else 0);
    }
    assert s[2..][0] == 'o';
  }

  /** What is installed for a home directory, given as its normalised path without a slash
      at the end. */
  function CommandsAt(home: string): Commands {
    Commands(
      Recognition(command => IsNotify(command), command => IsMailPump(command), command => IsAskHook(command)),
      home + NOTIFY_TAIL,
      Command(home, PUMP),
      Command(home, ASK))
  }

  function Command(home: string, word: string): string {
    home + "/.ftown/bin/" + HARNESS + " " + word
  }

  /** The path of the notifier is not taken for one of the other two. */
  predicate HomeFits(home: string) {
    !(Includes(home, HARNESS) && (Includes(home, PUMP) || Includes(home, ASK)))
  }

  lemma IncludesLeft(a: string, b: string, part: string)
    requires Includes(a, part)
    ensures Includes(a + b, part)
  {
    var i :| 0 <= i <= |a| && IncludesAt(a, part, i);
    assert (a + b)[i..i + |part|] == a[i..i + |part|];
    assert IncludesAt(a + b, part, i);
  }

  lemma IncludesRight(a: string, b: string, part: string)
    requires Includes(b, part)
    ensures Includes(a + b, part)
  {
    var i :| 0 <= i <= |b| && IncludesAt(b, part, i);
    assert (a + b)[|a| + i..|a| + i + |part|] == b[i..i + |part|];
    assert IncludesAt(a + b, part, |a| + i);
  }

  lemma IncludesItself(part: string)
    ensures Includes(part, part)
  {
    assert IncludesAt(part, part, 0);
  }

  lemma NotAt(s: string, part: string, i: nat, j: nat)
    requires j < |part| && (i + j < |s| ==> s[i + j] != part[j])
    ensures !IncludesAt(s, part, i)
  {
    if i + |part| <= |s| { assert s[i..i + |part|][j] == s[i + j]; }
  }

  /** A word without a slash does not reach over one. */
  lemma NoStraddle(home: string, tail: string, part: string)
    requires tail != [] && tail[0] == '/' && '/' !in part && !Includes(tail, part)
    ensures Includes(home + tail, part) <==> Includes(home, part)
  {
    if Includes(home, part) { IncludesLeft(home, tail, part); }
    var s := home + tail;
    forall i: nat | i < |home| < i + |part| ensures !IncludesAt(s, part, i) {
      assert part[|home| - i] in part;
      NotAt(s, part, i, |home| - i);
    }
    forall i: nat | i >= |home| ensures !IncludesAt(s, part, i) {
      if i + |part| <= |s| {
        assert !IncludesAt(tail, part, i - |home|);
        assert tail[i - |home|..i - |home| + |part|] == s[i..i + |part|];
      }
    }
    if Includes(s, part) {
      var i :| 0 <= i <= |s| && IncludesAt(s, part, i);
      assert home[i..i + |part|] == s[i..i + |part|];
      assert IncludesAt(home, part, i);
    }
  }

  /** No word of the other two hooks is in the notifier's own part of its path. */
  lemma TailIsPlain()
    ensures !Includes(NOTIFY_TAIL, HARNESS) && !Includes(NOTIFY_TAIL, PUMP) && !Includes(NOTIFY_TAIL, ASK)
  {
    forall i: nat ensures !IncludesAt(NOTIFY_TAIL, HARNESS, i) {
      NotAt(NOTIFY_TAIL, HARNESS, i, if i == 2 || i == 12 then 5 else 0);
    }
    forall i: nat ensures !IncludesAt(NOTIFY_TAIL, PUMP, i) {
      NotAt(NOTIFY_TAIL, PUMP, i, if i == 16 then 1 else 0);
    }
    forall i: nat ensures !IncludesAt(NOTIFY_TAIL, ASK, i) {
      NotAt(NOTIFY_TAIL, ASK, i, 0);
    }
  }

  lemma NotifierWords(home: string)
    ensures IsNotify(home + NOTIFY_TAIL)
    ensures IsMailPump(home + NOTIFY_TAIL) <==> Includes(home, HARNESS) && Includes(home, PUMP)
    ensures IsAskHook(home + NOTIFY_TAIL) <==> Includes(home, HARNESS) && Includes(home, ASK)
  {
    TailIsPlain();
    NoStraddle(home, NOTIFY_TAIL, HARNESS);
    NoStraddle(home, NOTIFY_TAIL, PUMP);
    NoStraddle(home, NOTIFY_TAIL, ASK);
    var path := home + NOTIFY_TAIL;
    assert path[|path| - 9..] == NOTIFY_TAIL[8..] == "notify.sh";
    assert NOTIFY_TAIL[1..8] == ".ftown/";
    assert IncludesAt(NOTIFY_TAIL, ".ftown/", 1);
    IncludesRight(home, NOTIFY_TAIL, ".ftown/");
  }

  lemma CommandWords(home: string, word: string)
    requires word != [] && word[|word| - 1] != 'h'
    ensures Includes(Command(home, word), HARNESS) && Includes(Command(home, word), word)
    ensures !IsNotify(Command(home, word))
  {
    var path := home + "/.ftown/bin/" + HARNESS;
    IncludesItself(HARNESS);
    IncludesRight(home + "/.ftown/bin/", HARNESS, HARNESS);
    IncludesLeft(path, " ", HARNESS);
    IncludesLeft(path + " ", word, HARNESS);
    IncludesItself(word);
    IncludesRight(path + " ", word, word);
    var s := Command(home, word);
    assert s[|s| - 1] == word[|word| - 1];
    if |s| >= 9 { assert s[|s| - 9..][8] == s[|s| - 1] && "notify.sh"[8] == 'h'; }
  }

  /** The three commands are told apart exactly in these homes. */
  lemma RecognisedInFittingHomes(home: string)
    ensures CommandsAt(home).Recognised() <==> HomeFits(home)
  {
    NotifierWords(home);
    CommandWords(home, PUMP);
    CommandWords(home, ASK);
  }

  /** Elsewhere the mail pump's hook takes the notifier's place as soon as that is there ... */
  lemma PumpOverwritesNotifier(home: string)
    requires Includes(home, HARNESS) && Includes(home, PUMP)
    ensures var c := CommandsAt(home);
      && Installed(c, Stop, []) == [Group(Text(""), [Hook(c.pump, Some(PUMP_TIMEOUT_SECONDS), None, 0)], 0)]
      && !AllThere(c, Stop, Installed(c, Stop, []))
  {
    NotifierWords(home);
    CommandWords(home, PUMP);
    var c := CommandsAt(home);
    var notify, pump := NotifySpec(c.known, c.notify), PumpSpec(c.known, c.pump);
    var first := [Group(Text(""), [notify.desired], 0)];
    assert WithNotify(c, Stop, []) == first;
    assert Matches(pump, notify.desired);
    FirstHookIs(pump, [notify.desired], 0);
    FirstGroupIs(pump, first, 0);
    var second := [Group(Text(""), [pump.desired], 0)];
    assert Repaired(pump, notify.desired) == pump.desired;
    assert first[0].hooks[0 := pump.desired] == [pump.desired];
    assert WithPump(c, Stop, first) == first[0 := first[0].(hooks := [pump.desired])] == second;
    assert !Matches(notify, pump.desired);
  }

  lemma {:induction false} HookIsMine(spec: Spec, hooks: seq<Hook>, placed: bool, k: nat)
    requires k < |hooks| && Matches(spec, hooks[k])
    ensures Mine(placed, hooks[k]) in MineIn(spec, hooks, placed)
  {
    if k < |hooks| - 1 { HookIsMine(spec, hooks[..|hooks| - 1], placed, k); }
  }

  lemma {:induction false} HookIsOurs(spec: Spec, target: string, list: seq<Group>, i: nat, k: nat)
    requires i < |list| && list[i].Group? && k < |list[i].hooks| && Matches(spec, list[i].hooks[k])
    ensures Mine(In(list[i], target), list[i].hooks[k]) in Ours(spec, target, list)
  {
    if i < |list| - 1 {
      HookIsOurs(spec, target, list[..|list| - 1], i, k);
    } else {
      HookIsMine(spec, list[i].hooks, In(list[i], target), k);
    }
  }

  /** A hook that is taken for another's version cannot stay beside that one. */
  lemma OnlyVersionStays(a: Spec, b: Spec, target: string, list: seq<Group>)
    requires a.desired.Hook? && b.desired.Hook? && a.desired.command != b.desired.command
    requires b.matches(a.desired.command) && Settled(b, Ours(b, target, list))
    ensures !FirstSettled(a, list)
  {
    var i := FirstGroup(a, list);
    if i < |list| {
      var k := FirstHook(a, list[i].hooks);
      var h := list[i].hooks[k];
      if h.command == a.desired.command {
        HookIsOurs(b, target, list, i, k);
        assert false;
      }
    }
  }

  /** ... and the question hook takes the notifier out, whatever the list was. */
  lemma AskRemovesNotifier(home: string, list: seq<Group>)
    requires Includes(home, HARNESS) && Includes(home, ASK)
    ensures var c := CommandsAt(home); !AllThere(c, PreToolUse, Installed(c, PreToolUse, list))
  {
    NotifierWords(home);
    CommandWords(home, ASK);
    var c := CommandsAt(home);
    var notify, ask := NotifySpec(c.known, c.notify), AskSpec(c.known, c.ask);
    var second := WithPump(c, PreToolUse, WithNotify(c, PreToolUse, list));
    ExactlyOneInstalled(ask, ASK_MATCHER, second);
    OnlyVersionStays(notify, ask, ASK_MATCHER, WithAsk(c, PreToolUse, second));
  }

  /** The user's own hooks survive in every home, also where ours are taken for each other. */
  lemma YoursStayInEveryHome(home: string, e: Event, list: seq<Group>)
    ensures var c := CommandsAt(home); Yours(AnyOf(c), Installed(c, e, list)) == Yours(AnyOf(c), list)
  {
    NotifierWords(home);
    CommandWords(home, PUMP);
    CommandWords(home, ASK);
    InstallationKeepsYours(CommandsAt(home), e, list);
  }

  /** So an installation is complete for every list of every event exactly in these homes. */
  lemma CompleteInFittingHomes(home: string)
    ensures HomeFits(home) <==>
      forall e: Event, list: seq<Group> :: AllThere(CommandsAt(home), e, Installed(CommandsAt(home), e, list))
  {
    var c := CommandsAt(home);
    RecognisedInFittingHomes(home);
    if HomeFits(home) {
      forall e: Event, list: seq<Group> ensures AllThere(c, e, Installed(c, e, list)) {
        InstallationIsComplete(c, e, list);
      }
    } else if Includes(home, PUMP) {
      PumpOverwritesNotifier(home);
    } else {
      AskRemovesNotifier(home, []);
    }
  }
}
