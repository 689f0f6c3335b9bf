/** The launch commands of the harnesses, and what a POSIX shell reads in them.

    A command is a list of parts joined by blanks. Each part spells one argument: a bare
    word, a quoted value, or a path under $HOME in double quotes. The reader below splits
    by the shell's quoting rules and refuses whatever a shell would do more with. */
module HarnessCommands {
  import opened Results

  const NUL: char := '\U{0000}'

  // The builders push words and quoted values onto a list and join it with spaces; a login
  // shell takes the result apart again. A reader written from the quoting rules of the shell
  // says what it gets, and every builder makes it get the intended arguments.

  // ---------- quoting ----------

  function Escape(value: string): string {
    if value == "" then ""
    else (if value[0] == '\'' then "'\\''" else [value[0]]) + Escape(value[1..])
  }

  /** shellQuote on POSIX: everything between single quotes, each of its own single
      quotes as close, escaped quote, open. */
  function Quote(value: string): string {
    "'" + Escape(value) + "'"
  }

  function Join(parts: seq<string>): string {
    if parts == [] then "" else if |parts| == 1 then parts[0] else parts[0] + " " + Join(parts[1..])
  }

  // ---------- what the shell reads ----------

  /** Characters that mean something to the shell when unquoted, by themselves or in
      some position (POSIX.1-2017, Shell Command Language, section 2.2). */
  predicate Special(c: char) {
    c in "|&;<>()$`\\\"'*?[]#~=%{}!^\n\r" || c == NUL
  }

  predicate Separator(c: char) {
    c == ' ' || c == '\t'
  }

  /** Where the reader stands: before a word, in one, or inside its quotes. */
  datatype Place = Between | InWord | Single | Double

  function Name(s: string): (n: nat)
    ensures n <= |s|
  {
    if s != "" && (s[0] == '_' || '0' <= s[0] <= '9' || 'a' <= s[0] <= 'z' || 'A' <= s[0] <= 'Z')
    then 1 + Name(s[1..]) else 0
  }

  function Cons(word: string, rest: Option<seq<string>>): Option<seq<string>> {
    if rest.None? then None else Some([word] + rest.value)
  }

  /** Reads words by the quoting rules of sections 2.2.1 to 2.2.3; `None` where a shell
      would do more than split: an operator, a pattern, an expansion other than a quoted
      $HOME, an unfinished quote, or a NUL. */
  function Read(s: string, place: Place, word: string, home: string): Option<seq<string>>
    decreases |s|
  {
    if s == "" then
      match place
      case Between => Some([])
      case InWord => Some([word])
      case _ => None
    else if s[0] == NUL then None
    else
      match place
      case Single =>
        if s[0] == '\'' then Read(s[1..], InWord, word, home) else Read(s[1..], Single, word + [s[0]], home)
      case Double =>
        if s[0] == '"' then Read(s[1..], InWord, word, home)
        else if s[0] == '`' then None
        else if s[0] == '$' then
          var n := Name(s[1..]);
          if s[1..n + 1] == "HOME" then Read(s[n + 1..], Double, word + home, home) else None
        else if s[0] == '\\' && |s| > 1 && s[1] in "$`\"\\" then Read(s[2..], Double, word + [s[1]], home)
        else if s[0] == '\\' && |s| > 1 && s[1] == '\n' then Read(s[2..], Double, word, home)
        else Read(s[1..], Double, word + [s[0]], home)
      case _ =>
        if s[0] == '\'' then Read(s[1..], Single, word, home)
        else if s[0] == '"' then Read(s[1..], Double, word, home)
        else if s[0] == '\\' then
          if |s| == 1 || s[1] == NUL || s[1] == '\n' then None else Read(s[2..], InWord, word + [s[1]], home)
        else if Separator(s[0]) then
          var words := Read(s[1..], Between, "", home);
          if place == Between then words else Cons(word, words)
        else if Special(s[0]) then None
        else Read(s[1..], InWord, word + [s[0]], home)
  }

  function Split(command: string, home: string): Option<seq<string>> {
    Read(command, Between, "", home)
  }

  // ---------- quoted words are read back ----------

  predicate NulFree(args: seq<string>) {
    forall i :: 0 <= i < |args| ==> NUL !in args[i]
  }

  lemma {:induction false} EscapedIsRead(value: string, rest: string, word: string, home: string)
    requires NUL !in value
    ensures Read(Escape(value) + "'" + rest, Single, word, home) == Read(rest, InWord, word + value, home)
    decreases |value|
  {
    if value == "" {
      assert Escape(value) + "'" + rest == "'" + rest;
      assert ("'" + rest)[1..] == rest;
      assert word + value == word;
    } else {
      var tail := Escape(value[1..]) + "'" + rest;
      EscapedIsRead(value[1..], rest, word + [value[0]], home);
      assert word + [value[0]] + value[1..] == word + value;
      if value[0] == '\'' {
        assert Escape(value) + "'" + rest == "'\\''" + tail;
        QuoteIsRead(tail, word, home);
      } else {
        assert Escape(value) + "'" + rest == [value[0]] + tail;
        assert ([value[0]] + tail)[1..] == tail;
      }
    }
  }

  /** Inside single quotes, the four characters `'\''` read as one quote. */
  lemma QuoteIsRead(tail: string, word: string, home: string)
    ensures Read("'\\''" + tail, Single, word, home) == Read(tail, Single, word + "'", home)
  {
    var s := "'\\''" + tail;
    var escaped := "\\''" + tail;
    assert s[1..] == escaped;
    assert escaped[1] == '\'' && escaped[2..] == "'" + tail;
    assert ("'" + tail)[1..] == tail;
    assert Read(s, Single, word, home) == Read(escaped, InWord, word, home);
    assert Read(escaped, InWord, word, home) == Read("'" + tail, InWord, word + "'", home);
  }

  lemma PlainMeansNothing(c: char)
    requires Plain(c)
    ensures !Special(c) && !Separator(c) && c != '\'' && c != '"' && c != '\\' && c != NUL
  {
  }

  lemma PlainIsRead(c: char, rest: string, place: Place, word: string, home: string)
    requires Plain(c) && (place == Between || place == InWord)
    ensures Read([c] + rest, place, word, home) == Read(rest, InWord, word + [c], home)
  {
    PlainMeansNothing(c);
    assert ([c] + rest)[1..] == rest;
  }

  lemma {:induction false} BareIsRead(p: string, rest: string, place: Place, word: string, home: string)
    requires place == Between || place == InWord
    requires p != "" && Bare(p)
    ensures Read(p + rest, place, word, home) == Read(rest, InWord, word + p, home)
    decreases |p|
  {
    assert p + rest == [p[0]] + (p[1..] + rest);
    PlainIsRead(p[0], p[1..] + rest, place, word, home);
    if |p| == 1 {
      assert p[1..] + rest == rest && word + [p[0]] == word + p;
    } else {
      BareIsRead(p[1..], rest, InWord, word + [p[0]], home);
      assert word + [p[0]] + p[1..] == word + p;
    }
  }

  /** Characters no position makes special. */
  predicate Plain(c: char) {
    || 'a' <= c <= 'z' || 'A' <= c <= 'Z' || '0' <= c <= '9'
    || c == '-' || c == '_' || c == '/' || c == '.'
  }

  predicate Bare(p: string) {
    forall i :: 0 <= i < |p| ==> Plain(p[i])
  }

  /** The path after $HOME in double quotes. */
  predicate PlainPath(path: string) {
    path != "" && path[0] == '/' && Bare(path)
  }

  lemma {:induction false} PathIsRead(path: string, rest: string, word: string, home: string)
    requires Bare(path)
    ensures Read(path + "\"" + rest, Double, word, home) == Read(rest, InWord, word + path, home)
    decreases |path|
  {
    var s := path + "\"" + rest;
    if path == "" {
      assert s == "\"" + rest && s[1..] == rest && word + path == word;
    } else {
      assert s[0] == path[0] && s[1..] == path[1..] + "\"" + rest;
      PathIsRead(path[1..], rest, word + [path[0]], home);
      assert word + [path[0]] + path[1..] == word + path;
    }
  }

  lemma NameIsHome(rest: string)
    requires rest == "" || !('0' <= rest[0] <= '9' || 'a' <= rest[0] <= 'z' || 'A' <= rest[0] <= 'Z' || rest[0] == '_')
    ensures Name("HOME" + rest) == 4
  {
    assert ("HOME" + rest)[1..] == "OME" + rest;
    assert ("OME" + rest)[1..] == "ME" + rest;
    assert ("ME" + rest)[1..] == "E" + rest;
    assert ("E" + rest)[1..] == rest;
    assert Name(rest) == 0;
    assert Name("E" + rest) == 1;
    assert Name("ME" + rest) == 2;
    assert Name("OME" + rest) == 3;
  }

  lemma HomeIsRead(path: string, rest: string, home: string)
    requires PlainPath(path)
    ensures Read("\"$HOME" + path + "\"" + rest, Between, "", home) == Read(rest, InWord, home + path, home)
  {
    var s := "\"$HOME" + path + "\"" + rest;
    var more := path + "\"" + rest;
    assert s[1..] == "$HOME" + more;
    assert ("$HOME" + more)[1..] == "HOME" + more;
    NameIsHome(more);
    assert ("$HOME" + more)[1..5] == "HOME" && ("$HOME" + more)[5..] == more;
    PathIsRead(path, rest, home, home);
    assert "" + home == home;
  }

  /** One printed part, and the argument it stands for. */
  ghost predicate Spells(part: string, arg: string, home: string) {
    || (part == arg && arg != "" && Bare(arg))
    || part == Quote(arg)
    || exists path: string :: PlainPath(path) && part == "\"$HOME" + path + "\"" && arg == home + path
  }

  ghost predicate SpellsAll(parts: seq<string>, args: seq<string>, home: string) {
    |parts| == |args| && forall i :: 0 <= i < |parts| ==> Spells(parts[i], args[i], home)
  }

  lemma PartIsRead(part: string, arg: string, rest: string, home: string)
    requires Spells(part, arg, home) && NUL !in arg
    ensures Read(part + rest, Between, "", home) == Read(rest, InWord, arg, home)
  {
    assert "" + arg == arg;
    if part == Quote(arg) {
      var s := part + rest;
      assert s[0] == '\'' && s[1..] == Escape(arg) + "'" + rest;
      EscapedIsRead(arg, rest, "", home);
    } else if part == arg && arg != "" && Bare(arg) {
      BareIsRead(part, rest, Between, "", home);
    } else {
      var path: string :| PlainPath(path) && part == "\"$HOME" + path + "\"" && arg == home + path;
      HomeIsRead(path, rest, home);
    }
  }

  lemma SeparatorIsRead(rest: string, word: string, home: string)
    ensures Read(" " + rest, InWord, word, home) == Cons(word, Split(rest, home))
  {
    assert (" " + rest)[1..] == rest;
  }

  /** The shell reads the joined parts back as exactly the arguments they stand for. */
  lemma {:induction false} ArgumentsAreRead(parts: seq<string>, args: seq<string>, home: string)
    requires SpellsAll(parts, args, home) && NulFree(args)
    ensures Split(Join(parts), home) == Some(args)
    decreases |parts|
  {
    if |parts| == 1 {
      assert parts[0] + "" == parts[0];
      PartIsRead(parts[0], args[0], "", home);
      assert args == [args[0]];
    } else if parts != [] {
      var rest := " " + Join(parts[1..]);
      assert Join(parts) == parts[0] + rest;
      PartIsRead(parts[0], args[0], rest, home);
      SeparatorIsRead(Join(parts[1..]), args[0], home);
      ArgumentsAreRead(parts[1..], args[1..], home);
      assert args == [args[0]] + args[1..];
    }
  }

  // ---------- an argument no command can carry ----------

  lemma {:induction false} NulIsRefused(s: string, place: Place, word: string, home: string)
    requires NUL in s
    ensures Read(s, place, word, home) == None
    decreases |s|
  {
    if s[0] != NUL {
      assert s == [s[0]] + s[1..];
      assert NUL in s[1..];
      if |s| > 1 && s[1] != NUL { assert s[1..] == [s[1]] + s[2..]; assert NUL in s[2..]; }
      match place
      case Single => NulIsRefused(s[1..], if s[0] == '\'' then InWord else Single, if s[0] == '\'' then word else word + [s[0]], home);
      case Double => NulIsRefusedInDouble(s, word, home);
      case _ =>
        if s[0] == '\\' {
          if |s| > 1 && s[1] != NUL { NulIsRefused(s[2..], InWord, word + [s[1]], home); }
        } else if s[0] == '\'' { NulIsRefused(s[1..], Single, word, home);
        } else if s[0] == '"' { NulIsRefused(s[1..], Double, word, home);
        } else if Separator(s[0]) { NulIsRefused(s[1..], Between, "", home);
        } else { NulIsRefused(s[1..], InWord, word + [s[0]], home); }
    }
  }

  lemma {:induction false} NulIsRefusedInDouble(s: string, word: string, home: string)
    requires s != "" && s[0] != NUL && NUL in s[1..] && (|s| > 1 && s[1] != NUL ==> NUL in s[2..])
    ensures Read(s, Double, word, home) == None
    decreases |s|, 0
  {
    if s[0] == '"' { NulIsRefused(s[1..], InWord, word, home);
    } else if s[0] == '$' {
      var n := Name(s[1..]);
      if s[1..n + 1] == "HOME" {
        NulAfterName(s[1..]);
        assert s[1..][n..] == s[n + 1..];
        NulIsRefused(s[n + 1..], Double, word + home, home);
      }
    } else if s[0] == '\\' && |s| > 1 && s[1] in "$`\"\\" { NulIsRefused(s[2..], Double, word + [s[1]], home);
    } else if s[0] == '\\' && |s| > 1 && s[1] == '\n' { NulIsRefused(s[2..], Double, word, home);
    } else { NulIsRefused(s[1..], Double, word + [s[0]], home); }
  }

  lemma {:induction false} NulAfterName(s: string)
    requires NUL in s
    ensures NUL in s[Name(s)..]
  {
    if Name(s) > 0 {
      assert s == [s[0]] + s[1..];
      NulAfterName(s[1..]);
      assert s[Name(s)..] == s[1..][Name(s[1..])..];
    }
  }

  lemma {:induction false} NulShows(parts: seq<string>, args: seq<string>, home: string)
    requires SpellsAll(parts, args, home) && NUL !in home && !NulFree(args)
    ensures NUL in Join(parts)
    decreases |parts|
  {
    if NUL in args[0] {
      assert parts[0] == Quote(args[0]);
      NulIsQuoted(args[0]);
    } else {
      assert args == [args[0]] + args[1..];
      NulShows(parts[1..], args[1..], home);
    }
  }

  lemma {:induction false} NulIsQuoted(value: string)
    requires NUL in value
    ensures NUL in Escape(value)
  {
    if value[0] != NUL {
      assert value == [value[0]] + value[1..];
      NulIsQuoted(value[1..]);
    }
  }

  /** What a command built for these arguments should read as: the arguments, or nothing
      at all when one of them holds a NUL, which no command line can carry. */
  function Intended(args: seq<string>): Option<seq<string>> {
    if NulFree(args) then Some(args) else None
  }

  lemma CommandIsRead(parts: seq<string>, args: seq<string>, home: string)
    requires SpellsAll(parts, args, home) && NUL !in home
    ensures Split(Join(parts), home) == Intended(args)
  {
    if NulFree(args) {
      ArgumentsAreRead(parts, args, home);
    } else {
      NulShows(parts, args, home);
      NulIsRefused(Join(parts), Between, "", home);
    }
  }

  // ---------- the builders ----------

  datatype Harness =
    Claude | Cursor | Codex | Shell | Grok | Muse | Pi | Opencode | KimiCode | Zai | Kimi | Deepseek | Fireworks

  /** `plugin`: where the Claude mod is installed, if the installed CLI supports it. */
  datatype Input = Input(
    workingDir: Option<string>,
    model: Option<string>,
    claudeId: Option<string>,
    cursorId: Option<string>,
    codexId: Option<string>,
    piId: Option<string>,
    opencodeId: Option<string>,
    museId: Option<string>,
    prompt: Option<string>,
    resume: bool,
    plugin: Option<string>)

  predicate Space(c: char) {
    || c == ' ' || '\t' <= c <= '\r' || c == '\U{00A0}' || c == '\U{1680}' || '\U{2000}' <= c <= '\U{200A}'
    || c == '\U{2028}' || c == '\U{2029}' || c == '\U{202F}' || c == '\U{205F}' || c == '\U{3000}' || c == '\U{FEFF}'
  }

  function TrimStart(s: string): string {
    if s != "" && Space(s[0]) then TrimStart(s[1..]) else s
  }

  function TrimEnd(s: string): string {
    if s != "" && Space(s[|s| - 1]) then TrimEnd(s[..|s| - 1]) else s
  }

  function Trim(s: string): string {
    TrimEnd(TrimStart(s))
  }

  predicate Given(value: Option<string>) {
    value.Some? && Trim(value.value) != ""
  }

  function Flag(name: string, value: Option<string>): seq<string> {
    if Given(value) then [name, Trim(value.value)] else []
  }

  function Positional(value: Option<string>): seq<string> {
    if Given(value) then [value.value] else []
  }

  // The argument list each harness is to be started with. Which options a resumed session
  // still gets differs from harness to harness.

  function CursorArguments(i: Input): seq<string> {
    ["agent", "--force"] + Flag("--workspace", i.workingDir) + Flag("--model", i.model)
    + Flag("--resume", i.cursorId) + Positional(i.prompt)
  }

  function CodexArguments(i: Input): seq<string> {
    var start := ["codex", "--dangerously-bypass-approvals-and-sandbox", "--dangerously-bypass-hook-trust"];
    if Given(i.codexId) then start + Flag("resume", i.codexId) else start + Flag("-m", i.model) + Positional(i.prompt)
  }

  function GrokArguments(i: Input): seq<string> {
    ["grok", "--always-approve"] + Flag("-m", i.model) + Positional(i.prompt)
  }

  function OpencodeArguments(i: Input): seq<string> {
    var start := ["opencode", "--auto"];
    if Given(i.opencodeId) then start + Flag("--session", i.opencodeId)
    else if Given(i.prompt) then start + Flag("-m", i.model) + ["--prompt"] + [i.prompt.value]
    else start + Flag("-m", i.model)
  }

  function PiArguments(i: Input, home: string): seq<string> {
    var start := ["pi", "--extension", home + "/.ftown/pi/ftown.js"];
    if Given(i.piId) then start + Flag("--session", i.piId) + Flag("--model", i.model)
    else if i.resume then start + ["-c"] + Flag("--model", i.model)
    else start + Flag("--model", i.model) + Positional(i.prompt)
  }

  function KimiCodeArguments(i: Input, home: string): seq<string> {
    var start := [home + "/.kimi-code/bin/kimi", "--yolo"];
    (if i.resume then start + ["-c"] else start) + Flag("-m", i.model)
  }

  function MuseArguments(i: Input): seq<string> {
    var start := ["muse", "--yolo"] + Flag("--workspace", i.workingDir);
    if Given(i.museId) then start + Flag("resume", i.museId) else start + Flag("--model", i.model) + Positional(i.prompt)
  }

  function ClaudeCli(i: Input): seq<string> {
    var cli := ["claude", "--allow-dangerously-skip-permissions"];
    if i.plugin.Some? then cli + ["--plugin-dir"] + [i.plugin.value] else cli
  }

  function ClaudeArguments(i: Input): seq<string> {
    ClaudeCli(i) + Flag("--model", i.model) + if Given(i.claudeId) then Flag("--resume", i.claudeId) else Positional(i.prompt)
  }

  function Arguments(h: Harness, i: Input, home: string): seq<string> {
    match h
    case Cursor => CursorArguments(i)
    case Codex => CodexArguments(i)
    case Shell => ["/bin/zsh", "-l"]
    case Grok => GrokArguments(i)
    case Muse => MuseArguments(i)
    case Pi => PiArguments(i, home)
    case Opencode => OpencodeArguments(i)
    case KimiCode => KimiCodeArguments(i, home)
    case _ => ClaudeArguments(i)
  }

  /** `if (value?.trim()) parts.push(name, shellQuote(value.trim()))` */
  method PushFlag(parts: seq<string>, ghost args: seq<string>, name: string, value: Option<string>, ghost home: string)
    returns (more: seq<string>, ghost moreArgs: seq<string>)
    requires SpellsAll(parts, args, home) && name != "" && Bare(name)
    ensures more == parts + if Given(value) then [name, Quote(Trim(value.value))] else []
    ensures SpellsAll(more, moreArgs, home) && moreArgs == args + Flag(name, value)
  {
    more, moreArgs := parts, args;
    if Given(value) {
      more := more + [name, Quote(Trim(value.value))];
      moreArgs := moreArgs + [name, Trim(value.value)];
    }
  }

  /** `if (value?.trim()) parts.push(shellQuote(value))` */
  method PushPositional(parts: seq<string>, ghost args: seq<string>, value: Option<string>, ghost home: string)
    returns (more: seq<string>, ghost moreArgs: seq<string>)
    requires SpellsAll(parts, args, home)
    ensures more == parts + if Given(value) then [Quote(value.value)] else []
    ensures SpellsAll(more, moreArgs, home) && moreArgs == args + Positional(value)
  {
    more, moreArgs := parts, args;
    if Given(value) {
      more := more + [Quote(value.value)];
      moreArgs := moreArgs + [value.value];
    }
  }

  /** `parts.push(word)`, for a word that needs no quotes. */
  method PushWord(parts: seq<string>, ghost args: seq<string>, word: string, ghost home: string)
    returns (more: seq<string>, ghost moreArgs: seq<string>)
    requires SpellsAll(parts, args, home) && word != "" && Bare(word)
    ensures more == parts + [word]
    ensures SpellsAll(more, moreArgs, home) && moreArgs == args + [word]
  {
    return parts + [word], args + [word];
  }

  method PushQuoted(parts: seq<string>, ghost args: seq<string>, value: string, ghost home: string)
    returns (more: seq<string>, ghost moreArgs: seq<string>)
    requires SpellsAll(parts, args, home)
    ensures more == parts + [Quote(value)]
    ensures SpellsAll(more, moreArgs, home) && moreArgs == args + [value]
  {
    return parts + [Quote(value)], args + [value];
  }

  /** A path under $HOME, which the shell that starts the harness expands. */
  method PushInHome(parts: seq<string>, ghost args: seq<string>, path: string, ghost home: string)
    returns (more: seq<string>, ghost moreArgs: seq<string>)
    requires SpellsAll(parts, args, home) && PlainPath(path)
    ensures more == parts + ["\"$HOME" + path + "\""]
    ensures SpellsAll(more, moreArgs, home) && moreArgs == args + [home + path]
  {
    assert Spells("\"$HOME" + path + "\"", home + path, home);
    return parts + ["\"$HOME" + path + "\""], args + [home + path];
  }

  method Finish(parts: seq<string>, ghost args: seq<string>, ghost home: string) returns (command: string)
    requires SpellsAll(parts, args, home)
    ensures NUL !in home ==> Split(command, home) == Intended(args)
  {
    if NUL !in home { CommandIsRead(parts, args, home); }
    return Join(parts);
  }

  method BuildCursor(i: Input, ghost home: string) returns (command: string)
    ensures NUL !in home ==> Split(command, home) == Intended(CursorArguments(i))
  {
    var parts, args := PushWord([], [], "agent", home);
    parts, args := PushWord(parts, args, "--force", home);
    assert args == ["agent", "--force"];
    parts, args := PushFlag(parts, args, "--workspace", i.workingDir, home);
    parts, args := PushFlag(parts, args, "--model", i.model, home);
    parts, args := PushFlag(parts, args, "--resume", i.cursorId, home);
    parts, args := PushPositional(parts, args, i.prompt, home);
    command := Finish(parts, args, home);
  }

  method CodexStart(ghost home: string) returns (parts: seq<string>, ghost args: seq<string>)
    ensures args == ["codex", "--dangerously-bypass-approvals-and-sandbox", "--dangerously-bypass-hook-trust"]
    ensures SpellsAll(parts, args, home)
  {
    parts, args := PushWord([], [], "codex", home);
    parts, args := PushWord(parts, args, "--dangerously-bypass-approvals-and-sandbox", home);
    parts, args := PushWord(parts, args, "--dangerously-bypass-hook-trust", home);
  }

  method BuildCodex(i: Input, ghost home: string) returns (command: string)
    ensures NUL !in home ==> Split(command, home) == Intended(CodexArguments(i))
  {
    var parts, args := CodexStart(home);
    if Given(i.codexId) {
      parts, args := PushFlag(parts, args, "resume", i.codexId, home);
      command := Finish(parts, args, home);
      return;
    }
    parts, args := PushFlag(parts, args, "-m", i.model, home);
    parts, args := PushPositional(parts, args, i.prompt, home);
    command := Finish(parts, args, home);
  }

  method BuildGrok(i: Input, ghost home: string) returns (command: string)
    ensures NUL !in home ==> Split(command, home) == Intended(GrokArguments(i))
  {
    var parts, args := PushWord([], [], "grok", home);
    parts, args := PushWord(parts, args, "--always-approve", home);
    assert args == ["grok", "--always-approve"];
    parts, args := PushFlag(parts, args, "-m", i.model, home);
    parts, args := PushPositional(parts, args, i.prompt, home);
    command := Finish(parts, args, home);
  }

  method BuildOpencode(i: Input, ghost home: string) returns (command: string)
    ensures NUL !in home ==> Split(command, home) == Intended(OpencodeArguments(i))
  {
    var parts, args := PushWord([], [], "opencode", home);
    parts, args := PushWord(parts, args, "--auto", home);
    assert args == ["opencode", "--auto"];
    if Given(i.opencodeId) {
      parts, args := PushFlag(parts, args, "--session", i.opencodeId, home);
      command := Finish(parts, args, home);
      return;
    }
    parts, args := PushFlag(parts, args, "-m", i.model, home);
    if Given(i.prompt) {
      parts, args := PushWord(parts, args, "--prompt", home);
      parts, args := PushQuoted(parts, args, i.prompt.value, home);
    }
    command := Finish(parts, args, home);
  }

  /** Keeps $HOME unexpanded: the shell that starts the harness expands it. */
  method BuildPi(i: Input, ghost home: string) returns (command: string)
    ensures NUL !in home ==> Split(command, home) == Intended(PiArguments(i, home))
  {
    var parts, args := PushWord([], [], "pi", home);
    parts, args := PushWord(parts, args, "--extension", home);
    parts, args := PushInHome(parts, args, "/.ftown/pi/ftown.js", home);
    assert args == ["pi", "--extension", home + "/.ftown/pi/ftown.js"];
    if Given(i.piId) {
      parts, args := PushFlag(parts, args, "--session", i.piId, home);
    } else if i.resume {
      parts, args := PushWord(parts, args, "-c", home);
    }
    parts, args := PushFlag(parts, args, "--model", i.model, home);
    if !i.resume && !Given(i.piId) { parts, args := PushPositional(parts, args, i.prompt, home); }
    command := Finish(parts, args, home);
  }

  method BuildKimiCode(i: Input, ghost home: string) returns (command: string)
    ensures NUL !in home ==> Split(command, home) == Intended(KimiCodeArguments(i, home))
  {
    var parts, args := PushInHome([], [], "/.kimi-code/bin/kimi", home);
    parts, args := PushWord(parts, args, "--yolo", home);
    assert args == [home + "/.kimi-code/bin/kimi", "--yolo"];
    if i.resume {
      parts, args := PushWord(parts, args, "-c", home);
    }
    parts, args := PushFlag(parts, args, "-m", i.model, home);
    command := Finish(parts, args, home);
  }

  method BuildMuse(i: Input, ghost home: string) returns (command: string)
    ensures NUL !in home ==> Split(command, home) == Intended(MuseArguments(i))
  {
    var parts, args := PushWord([], [], "muse", home);
    parts, args := PushWord(parts, args, "--yolo", home);
    assert args == ["muse", "--yolo"];
    parts, args := PushFlag(parts, args, "--workspace", i.workingDir, home);
    if Given(i.museId) {
      parts, args := PushFlag(parts, args, "resume", i.museId, home);
      command := Finish(parts, args, home);
      return;
    }
    parts, args := PushFlag(parts, args, "--model", i.model, home);
    parts, args := PushPositional(parts, args, i.prompt, home);
    command := Finish(parts, args, home);
  }

  method ClaudeStart(i: Input, ghost home: string) returns (parts: seq<string>, ghost args: seq<string>)
    ensures args == ClaudeCli(i) && SpellsAll(parts, args, home)
  {
    parts, args := PushWord([], [], "claude", home);
    parts, args := PushWord(parts, args, "--allow-dangerously-skip-permissions", home);
    assert args == ["claude", "--allow-dangerously-skip-permissions"];
    if i.plugin.Some? {
      parts, args := PushWord(parts, args, "--plugin-dir", home);
      parts, args := PushQuoted(parts, args, i.plugin.value, home);
    }
  }

  /** The claude CLI, for itself and for every provider that borrows it. */
  method BuildClaude(i: Input, ghost home: string) returns (command: string)
    ensures NUL !in home ==> Split(command, home) == Intended(ClaudeArguments(i))
  {
    var parts, args := ClaudeStart(i, home);
    parts, args := PushFlag(parts, args, "--model", i.model, home);
    if Given(i.claudeId) {
      parts, args := PushFlag(parts, args, "--resume", i.claudeId, home);
    } else {
      parts, args := PushPositional(parts, args, i.prompt, home);
    }
    command := Finish(parts, args, home);
  }

  /** Whatever the options hold, the login shell starts the harness with exactly its
      argument list. */
  method BuildCommand(h: Harness, i: Input, ghost home: string) returns (command: string)
    ensures NUL !in home ==> Split(command, home) == Intended(Arguments(h, i, home))
  {
    match h
    case Cursor => command := BuildCursor(i, home);
    case Codex => command := BuildCodex(i, home);
    case Shell =>
      var parts, args := PushWord([], [], "/bin/zsh", home);
      parts, args := PushWord(parts, args, "-l", home);
      assert args == ["/bin/zsh", "-l"];
      command := Finish(parts, args, home);
    case Grok => command := BuildGrok(i, home);
    case Muse => command := BuildMuse(i, home);
    case Pi => command := BuildPi(i, home);
    case Opencode => command := BuildOpencode(i, home);
    case KimiCode => command := BuildKimiCode(i, home);
    case _ => command := BuildClaude(i, home);
  }

  // ---------- the first prompt ----------

  /** harnessAcceptsPromptAsCliArg */
  predicate AcceptsPrompt(h: Harness, i: Input) {
    match h
    case Shell => false
    case KimiCode => false
    case Cursor => !Given(i.cursorId)
    case Codex => !Given(i.codexId)
    case Muse => !Given(i.museId)
    case Opencode => !Given(i.opencodeId)
    case Grok => true
    case Pi => true
    case _ => !Given(i.claudeId)
  }

  /** The arguments a new session starts with, and the text typed into it afterwards. */
  function Launch(h: Harness, i: Input, text: string, home: string): (seq<string>, Option<string>) {
    if AcceptsPrompt(h, i) then (Arguments(h, i.(prompt := Some(text)), home), None)
    else (Arguments(h, i, home), Some(text))
  }

  /** The text arrives once: as the last argument, or typed, but not both. */
  predicate ArrivesOnce(h: Harness, i: Input, text: string, home: string) {
    var (args, typed) := Launch(h, i, text, home);
    var base := Arguments(h, i, home);
    || (typed == None && args == base + if h == Opencode then ["--prompt", text] else [text])
    || (typed == Some(text) && args == base)
  }

  /** A new session's first text (a prompt or a briefing, never blank) arrives exactly once,
      except for a Pi session started on a stored session id: there it is dropped. */
  lemma FirstTextArrives(h: Harness, i: Input, text: string, home: string)
    requires Trim(text) != "" && i.prompt == None && !i.resume
    ensures ArrivesOnce(h, i, text, home) <==> !(h == Pi && Given(i.piId))
  {
    var given := i.(prompt := Some(text));
    var base := Arguments(h, i, home);
    assert Positional(i.prompt) == [] && Positional(given.prompt) == [text];
    if h == Pi && Given(i.piId) {
      assert |base + [text]| == |base| + 1;
      assert Launch(h, i, text, home) == (base, None);
    } else if AcceptsPrompt(h, i) {
      var extra := if h == Opencode then ["--prompt", text] else [text];
      assert Arguments(h, given, home) == base + extra;
    }
  }

  // ---------- the argument lists, spelled out ----------

  predicate AllSpace(s: string) {
    forall c <- s :: Space(c)
  }

  predicate Trimmed(s: string) {
    s != "" ==> !Space(s[0]) && !Space(s[|s| - 1])
  }

  lemma {:induction false} StartGoes(a: string, t: string)
    requires AllSpace(a) && (t != "" ==> !Space(t[0]))
    ensures TrimStart(a + t) == t
  {
    if a == "" {
      assert a + t == t;
    } else {
      assert a[0] in a && AllSpace(a[1..]);
      StartGoes(a[1..], t);
      assert (a + t)[1..] == a[1..] + t;
    }
  }

  lemma {:induction false} EndGoes(t: string, b: string)
    requires AllSpace(b) && (t != "" ==> !Space(t[|t| - 1]))
    ensures TrimEnd(t + b) == t
  {
    if b == "" {
      assert t + b == t;
    } else {
      var init := b[..|b| - 1];
      assert b[|b| - 1] in b && AllSpace(init);
      EndGoes(t, init);
      assert (t + b)[..|t + b| - 1] == t + init;
    }
  }

  /** Trimming takes exactly the white space at the ends. */
  lemma {:induction false} EndsGo(a: string, t: string, b: string)
    requires AllSpace(a) && AllSpace(b) && Trimmed(t)
    ensures Trim(a + t + b) == t
    ensures Space(' ') && Space('\t') && Space('\n') && !Space('x') && !Space('-')
  {
    if t == "" {
      assert a + t + b == (a + b) + t && AllSpace(a + b);
      StartGoes(a + b, t);
    } else {
      assert a + t + b == a + (t + b);
      StartGoes(a, t + b);
      EndGoes(t, b);
    }
  }

  /** What a caller gives, written without space around it. */
  predicate Word(s: string) {
    s != "" && Trimmed(s)
  }

  lemma {:induction false} WordIsGiven(s: string)
    requires Word(s)
    ensures Trim(s) == s && Given(Some(s))
  {
    EndsGo("", s, "");
    assert "" + s + "" == s;
  }

  function Fresh(dir: string, model: string, prompt: string): Input {
    Input(Some(dir), Some(model), None, None, None, None, None, None, Some(prompt), false, None)
  }

  /** A fresh session with a directory, a model and a prompt. */
  lemma {:induction false} FreshSession(dir: string, model: string, prompt: string, home: string)
    requires Word(dir) && Word(model) && Word(prompt)
    ensures var i := Fresh(dir, model, prompt);
      && Arguments(Cursor, i, home) == ["agent", "--force", "--workspace", dir, "--model", model, prompt]
      && Arguments(Codex, i, home)
           == ["codex", "--dangerously-bypass-approvals-and-sandbox", "--dangerously-bypass-hook-trust", "-m", model, prompt]
      && Arguments(Shell, i, home) == ["/bin/zsh", "-l"]
      && Arguments(Grok, i, home) == ["grok", "--always-approve", "-m", model, prompt]
      && Arguments(Muse, i, home) == ["muse", "--yolo", "--workspace", dir, "--model", model, prompt]
      && Arguments(Pi, i, home) == ["pi", "--extension", home + "/.ftown/pi/ftown.js", "--model", model, prompt]
      && Arguments(Opencode, i, home) == ["opencode", "--auto", "-m", model, "--prompt", prompt]
      && Arguments(KimiCode, i, home) == [home + "/.kimi-code/bin/kimi", "--yolo", "-m", model]
      && Arguments(Claude, i, home) == ["claude", "--allow-dangerously-skip-permissions", "--model", model, prompt]
  {
    WordIsGiven(dir);
    WordIsGiven(model);
    WordIsGiven(prompt);
  }

  /** A session that goes on: what is still passed besides its id. */
  lemma {:induction false} ResumedSession(dir: string, model: string, prompt: string, id: string, home: string)
    requires Word(dir) && Word(model) && Word(prompt) && Word(id)
    ensures var i := Fresh(dir, model, prompt).(resume := true);
      && Arguments(Cursor, i.(cursorId := Some(id)), home)
           == ["agent", "--force", "--workspace", dir, "--model", model, "--resume", id, prompt]
      && Arguments(Codex, i.(codexId := Some(id)), home)
           == ["codex", "--dangerously-bypass-approvals-and-sandbox", "--dangerously-bypass-hook-trust", "resume", id]
      && Arguments(Muse, i.(museId := Some(id)), home) == ["muse", "--yolo", "--workspace", dir, "resume", id]
      && Arguments(Pi, i.(piId := Some(id)), home)
           == ["pi", "--extension", home + "/.ftown/pi/ftown.js", "--session", id, "--model", model]
      && Arguments(Pi, i, home) == ["pi", "--extension", home + "/.ftown/pi/ftown.js", "-c", "--model", model]
      && Arguments(Opencode, i.(opencodeId := Some(id)), home) == ["opencode", "--auto", "--session", id]
      && Arguments(KimiCode, i, home) == [home + "/.kimi-code/bin/kimi", "--yolo", "-c", "-m", model]
      && Arguments(Claude, i.(claudeId := Some(id)), home)
           == ["claude", "--allow-dangerously-skip-permissions", "--model", model, "--resume", id]
      && Arguments(Claude, i.(claudeId := Some(id), plugin := Some(dir)), home)
           == ["claude", "--allow-dangerously-skip-permissions", "--plugin-dir", dir, "--model", model, "--resume", id]
  {
    WordIsGiven(dir);
    WordIsGiven(model);
    WordIsGiven(prompt);
    WordIsGiven(id);
  }
}
