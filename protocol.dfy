/**
 * The session protocol of class `Switch` in `m4100/__init__.py`, as values.
 *
 * The pexpect child is replaced by a scripted transport: every wait takes
 * the next reply of a script, and every line sent and every wait is written
 * to a log. Each `Switch` operation is a function from the session before
 * the call to the session after it and what the call returned or raised;
 * the methods of `M4100.Switch` are proved to follow these functions, and
 * the lemmas here state what the operations promise.
 */
module Protocol {
  import opened Wrappers
  import opened Text
  import opened Utils

  /** The patterns a wait is given. */
  datatype Pattern =
    | Prompt0                  // `\((?P<name>[^)]+)\) >`, the unprivileged prompt
    | Prompt1                  // `\((?P<name>[^)]+)\) (\((?P<mode>[^)]+)\))?#`, the privileged prompt
    | Literal(text: string)    // a plain string pattern such as `"password:"`
    | IgnoreCase(text: string) // a case-insensitive error pattern

  /** `Switch.re_error`: output that reports a rejected command. */
  const ReError: seq<Pattern> := [IgnoreCase("invalid input"), IgnoreCase("vlan id not found")]

  const PasswordPrompt: Pattern := Literal("password:")

  /** An index into `ReError`. */
  type ErrorIndex = i: nat | i < 2

  /** The `name` and `mode` groups a prompt match captured, `None` when unmatched. */
  datatype Captures = Captures(name: Option<string>, mode: Option<string>)

  /** A match: the pattern that matched and its `groupdict()`. */
  datatype MatchObject = MatchObject(re: Pattern, groups: map<string, Option<string>>)

  /** `match.groupdict()`: only the groups the pattern declares are keys. */
  function GroupDict(re: Pattern, c: Captures): map<string, Option<string>> {
    match re
    case Prompt0 => map["name" := c.name]
    case Prompt1 => map["name" := c.name, "mode" := c.mode]
    case _ => map[]
  }

  /** The exceptions pexpect raises from a wait. */
  datatype Failure = Timeout | Eof

  /** What the transport answers to one wait. */
  datatype Reply =
    | Matched(captures: Captures, before: string)        // the awaited pattern matched
    | MatchedError(which: ErrorIndex, before: string)    // `re_error[which]` matched
    | Failed(failure: Failure)                           // the wait raised

  datatype Event = Sent(line: string) | Awaited(patterns: seq<Pattern>)

  /**
   * The transport's state: the replies still to come, what was sent and
   * awaited so far, and the `match` and `before` of the last successful wait.
   */
  datatype Link = Link(script: seq<Reply>, log: seq<Event>, matched: Option<MatchObject>, before: string)

  datatype Error =
    | CommandExecutionError(matched: MatchObject, before: string)
    | TransportError(failure: Failure)

  /** What a call returns, or the exception it raises. */
  datatype Result<T> = Ok(value: T) | Raised(error: Error)

  datatype Session = Session(
    user: string,
    password: Option<string>,
    hostname: Option<string>,
    mode: Option<string>,
    prompt: Pattern,
    enabled: Option<int>,
    link: Link)

  // ---------------------------------------------------------------------
  // The transport
  // ---------------------------------------------------------------------

  /** `child.sendline(line)`. */
  function SendLine(link: Link, line: string): Link {
    link.(log := link.log + [Sent(line)])
  }

  /**
   * `child.expect(patterns)`: the index of the pattern that matched. A
   * script that has run out stands for a device that stays silent.
   */
  function Wait(link: Link, patterns: seq<Pattern>): (Link, Result<nat>)
    requires |patterns| == 1 + |ReError|
  {
    var waited := link.(log := link.log + [Awaited(patterns)]);
    if link.script == [] then (waited, Raised(TransportError(Timeout)))
    else
      var rest := waited.(script := link.script[1..]);
      match link.script[0]
      case Failed(f) => (rest, Raised(TransportError(f)))
      case Matched(c, b) =>
        (rest.(matched := Some(MatchObject(patterns[0], GroupDict(patterns[0], c))), before := b), Ok(0))
      case MatchedError(k, b) =>
        (rest.(matched := Some(MatchObject(patterns[1 + k], map[])), before := b), Ok(1 + k))
  }

  // ---------------------------------------------------------------------
  // The operations of `Switch`
  // ---------------------------------------------------------------------

  /** `[what] + self.re_error`. */
  function Patterns(what: Pattern): seq<Pattern> {
    [what] + ReError
  }

  /** `expect(what)`: a match of an error pattern is raised as a command error. */
  function Expect(s: Session, what: Pattern): (Session, Result<()>) {
    var w := Wait(s.link, Patterns(what));
    var t := s.(link := w.0);
    if w.1.Raised? then (t, Raised(w.1.error))
    else if t.link.matched.Some? && t.link.matched.value.re in ReError then
      (t, Raised(CommandExecutionError(t.link.matched.value, t.link.before)))
    else (t, Ok(()))
  }

  /** A group's value when the match has that group and it is non-empty. */
  function GroupValue(groups: map<string, Option<string>>, key: string): Option<string> {
    if key in groups && groups[key].Some? && groups[key].value != "" then groups[key] else None
  }

  /** `expect_prompt()`: wait for the active prompt, then read the identity off it. */
  function ExpectPrompt(s: Session): (Session, Result<()>) {
    var e := Expect(s, s.prompt);
    var t := e.0;
    if e.1.Raised? then e
    else if t.link.matched.Some? then
      var groups := t.link.matched.value.groups;
      (t.(hostname := GroupValue(groups, "name"), mode := GroupValue(groups, "mode")), e.1)
    else (t.(hostname := None, mode := None), e.1)
  }

  /** `login()`: answer the password prompt when there is a password. */
  function Login(s: Session): (Session, Result<()>) {
    if s.password.None? then (s, Ok(()))
    else
      var e := Expect(s, PasswordPrompt);
      if e.1.Raised? then e
      else (e.0.(link := SendLine(e.0.link, s.password.value)), Ok(()))
  }

  /** `connect()`, given the transport the ssh process was spawned on. */
  function Connect(s: Session, spawned: Link): (Session, Result<()>) {
    var l := Login(s.(link := spawned));
    if l.1.Raised? then l else ExpectPrompt(l.0)
  }

  /** The state `Switch(hostname, user, password)` starts `connect()` in. */
  function Initial(hostname: string, user: string, password: Option<string>, spawned: Link): Session {
    Session(user, password, Some(hostname), None, Prompt0, None, spawned)
  }

  /** Python's `lines[1:-1]`: drops the first and the last line. */
  function MiddleLines(lines: seq<string>): (middle: seq<string>)
    ensures |lines| <= 2 ==> middle == []
    ensures 2 < |lines| ==>
      |middle| == |lines| - 2 && forall k :: 0 <= k < |middle| ==> middle[k] == lines[k + 1]
  {
    if |lines| <= 2 then [] else lines[1..|lines| - 1]
  }

  /**
   * What `send_command` returns for the text before the prompt: its lines
   * without the echoed command and the prompt line; nothing when there is
   * no text.
   */
  function CommandOutput(before: string): seq<string> {
    if before == "" then [] else MiddleLines(SplitLines(before))
  }

  /** `send_command(cmd)`. */
  function SendCommand(s: Session, cmd: string): (Session, Result<seq<string>>) {
    var e := ExpectPrompt(s.(link := SendLine(s.link, cmd)));
    if e.1.Raised? then (e.0, Raised(e.1.error))
    else (e.0, Ok(CommandOutput(e.0.link.before)))
  }

  /** `enable()`: the privileged prompt is awaited from the `enable` command on. */
  function Enable(s: Session): (Session, Result<()>) {
    var c := SendCommand(s.(prompt := Prompt1), "enable");
    if c.1.Raised? then (c.0, Raised(c.1.error))
    else (c.0.(enabled := Some(1)), Ok(()))
  }

  /** `disable()`: the unprivileged prompt is awaited from the `exit` command on. */
  function Disable(s: Session): (Session, Result<()>) {
    var c := SendCommand(s.(prompt := Prompt0), "exit");
    if c.1.Raised? then (c.0, Raised(c.1.error))
    else (c.0.(enabled := Some(0)), Ok(()))
  }

  /**
   * The body of a `with` block, as the commands it sends through
   * `send_command` in order; the first one that raises ends the block.
   */
  function RunCommands(s: Session, body: seq<string>): (Session, Result<()>)
    decreases |body|
  {
    if body == [] then (s, Ok(()))
    else
      var c := SendCommand(s, body[0]);
      if c.1.Raised? then (c.0, Raised(c.1.error))
      else RunCommands(c.0, body[1..])
  }

  /**
   * `with context(cmd): body`. There is no `try`/`finally`: when the body
   * raises, `exit` is not sent.
   */
  function Context(s: Session, cmd: string, body: seq<string>): (Session, Result<()>) {
    var enter := SendCommand(s, cmd);
    if enter.1.Raised? then (enter.0, Raised(enter.1.error))
    else
      var inner := RunCommands(enter.0, body);
      if inner.1.Raised? then inner
      else
        var leave := SendCommand(inner.0, "exit");
        if leave.1.Raised? then (leave.0, Raised(leave.1.error)) else (leave.0, Ok(()))
  }

  function Configure(s: Session, body: seq<string>): (Session, Result<()>) {
    Context(s, "configure", body)
  }

  function Interface(s: Session, name: string, body: seq<string>): (Session, Result<()>) {
    Context(s, "interface " + name, body)
  }

  /** `with vlan_database(): body`, written out without `context`. */
  function VlanDatabase(s: Session, body: seq<string>): (Session, Result<()>) {
    var enter := SendCommand(s, "vlan database");
    if enter.1.Raised? then (enter.0, Raised(enter.1.error))
    else
      var inner := RunCommands(enter.0, body);
      if inner.1.Raised? then inner
      else
        var leave := SendCommand(inner.0, "exit");
        if leave.1.Raised? then (leave.0, Raised(leave.1.error)) else (leave.0, Ok(()))
  }

  /** A `get_*` method that reads a fixed-width table. */
  function GetTable(s: Session, cmd: string): (Session, Result<seq<map<string, string>>>) {
    var c := SendCommand(s, cmd);
    if c.1.Raised? then (c.0, Raised(c.1.error)) else (c.0, Ok(Table(c.1.value)))
  }

  /** A `get_*` method that reads a dotted table. */
  function GetFields(s: Session, cmd: string): (Session, Result<map<string, Option<string>>>) {
    var c := SendCommand(s, cmd);
    if c.1.Raised? then (c.0, Raised(c.1.error)) else (c.0, Ok(DottedTable(c.1.value)))
  }

  const ShowVlan := "show vlan"
  const ShowHardware := "show hardware | include \\.\\.\\."
  const ShowSysinfo := "show sysinfo | include \\.\\.\\."
  const ShowPorts := "show port all"
  const ShowPortStatus := "show port status all"
  const ShowVersion := "show version"

  function ShowVlanOf(vid: string): string {
    "show vlan " + vid
  }

  function ShowInterface(name: string): string {
    "show interface " + name
  }

  // ---------------------------------------------------------------------
  // What the operations promise
  // ---------------------------------------------------------------------

  /** A captured group as the identity fields keep it: `None` when absent or empty. */
  function NonEmpty(group: Option<string>): Option<string> {
    if group.Some? && group.value != "" then group else None
  }

  /** The lines of a dialogue: each line sent, then the wait for `prompt`. */
  function Dialogue(lines: seq<string>, prompt: Pattern): seq<Event> {
    if lines == [] then [] else [Sent(lines[0]), Awaited(Patterns(prompt))] + Dialogue(lines[1..], prompt)
  }

  /**
   * One wait: it is logged, it takes one reply when there is one, and the
   * reply decides the outcome. A match of the awaited pattern succeeds and
   * records the match; a match of error pattern `k` raises a command error
   * carrying that match and the text before it; a failure, or a silent
   * device, raises a transport error. Nothing but the transport changes.
   */
  lemma ExpectOutcome(s: Session, what: Pattern)
    requires what !in ReError
    ensures var (t, r) := Expect(s, what);
      && t == s.(link := t.link)
      && t.link.log == s.link.log + [Awaited(Patterns(what))]
      && (s.link.script == [] ==> t.link.script == [] && r == Raised(TransportError(Timeout)))
      && (s.link.script != [] ==>
            && t.link.script == s.link.script[1..]
            && match s.link.script[0]
               case Failed(f) => r == Raised(TransportError(f))
               case Matched(c, b) =>
                 r == Ok(()) && t.link.matched == Some(MatchObject(what, GroupDict(what, c))) && t.link.before == b
               case MatchedError(k, b) =>
                 r == Raised(CommandExecutionError(MatchObject(ReError[k], map[]), b)))
  {
  }

  /** `expect` raises a command error exactly when an error pattern matched. */
  lemma ExpectErrorIff(s: Session, what: Pattern)
    requires what !in ReError
    ensures Expect(s, what).1.Raised? && Expect(s, what).1.error.CommandExecutionError?
        <==> s.link.script != [] && s.link.script[0].MatchedError?
  {
    ExpectOutcome(s, what);
  }

  /**
   * An error raised while waiting for the prompt comes before the identity
   * update: only the transport has changed.
   */
  lemma ErrorKeepsIdentity(s: Session)
    requires ExpectPrompt(s).1.Raised?
    ensures ExpectPrompt(s).0 == s.(link := ExpectPrompt(s).0.link)
  {
  }

  /**
   * A prompt match sets the identity from its groups: `hostname` is the
   * `name` group and `mode` the `mode` group, each `None` when absent or
   * empty. `prompt0` has no `mode` group, so under it `mode` becomes `None`.
   */
  lemma PromptSetsIdentity(s: Session, c: Captures, b: string)
    requires s.prompt !in ReError
    requires s.link.script != [] && s.link.script[0] == Matched(c, b)
    ensures var (t, r) := ExpectPrompt(s);
      && r == Ok(())
      && t == s.(link := t.link, hostname := t.hostname, mode := t.mode)
      && t.link.before == b
      && t.hostname == (if s.prompt in {Prompt0, Prompt1} then NonEmpty(c.name) else None)
      && t.mode == (if s.prompt == Prompt1 then NonEmpty(c.mode) else None)
  {
    ExpectOutcome(s, s.prompt);
  }

  /** Under `prompt0` a successful `expect_prompt` always clears `mode`. */
  lemma Prompt0ClearsMode(s: Session)
    requires s.prompt == Prompt0 && ExpectPrompt(s).1.Ok?
    ensures ExpectPrompt(s).0.mode == None
  {
    ExpectOutcome(s, Prompt0);
  }

  /**
   * `send_command` writes the command, then waits for the active prompt,
   * whatever the outcome; besides the transport only the identity can change.
   */
  lemma SendCommandLog(s: Session, cmd: string)
    ensures var t := SendCommand(s, cmd).0;
      && t.link.log == s.link.log + [Sent(cmd), Awaited(Patterns(s.prompt))]
      && t == s.(link := t.link, hostname := t.hostname, mode := t.mode)
  {
  }

  /** A call that raises leaves the identity as it was. */
  lemma SendCommandErrorKeepsIdentity(s: Session, cmd: string)
    requires SendCommand(s, cmd).1.Raised?
    ensures var t := SendCommand(s, cmd).0;
      t.hostname == s.hostname && t.mode == s.mode
  {
  }

  /**
   * The text before the prompt is the echoed command, the output and the
   * prompt line: `send_command` gives back exactly the output lines.
   */
  lemma SendCommandOutput(s: Session, cmd: string, c: Captures, echo: string, out: seq<string>, last: string)
    requires s.prompt !in ReError
    requires NoLineBreak(echo) && NoLineBreak(last)
    requires forall k :: 0 <= k < |out| ==> NoLineBreak(out[k])
    requires s.link.script != [] && s.link.script[0] == Matched(c, JoinLines([echo] + out + [last]))
    ensures SendCommand(s, cmd).1 == Ok(out)
  {
    var b := JoinLines([echo] + out + [last]);
    var t := s.(link := SendLine(s.link, cmd));
    PromptSetsIdentity(t, c, b);
    assert SendCommand(s, cmd).1 == Ok(CommandOutput(b));
    OutputBetweenEchoAndPrompt(echo, out, last);
  }

  /** The lines between the echo and the prompt line are what `send_command` keeps. */
  lemma OutputBetweenEchoAndPrompt(echo: string, out: seq<string>, last: string)
    requires NoLineBreak(echo) && NoLineBreak(last)
    requires forall k :: 0 <= k < |out| ==> NoLineBreak(out[k])
    ensures CommandOutput(JoinLines([echo] + out + [last])) == out
  {
    var lines := [echo] + out + [last];
    forall k | 0 <= k < |lines| ensures NoLineBreak(lines[k]) {
      if 0 < k < |lines| - 1 {
        assert lines[k] == out[k - 1];
      }
    }
    SplitJoinLines(lines);
    assert JoinLines(lines) == echo + "\n" + JoinLines(lines[1..]);
    assert lines[1..|lines| - 1] == out;
  }

  /** Text of at most two lines, or none, gives no output. */
  lemma SendCommandNoOutput(s: Session, cmd: string, c: Captures, b: string)
    requires s.prompt !in ReError
    requires s.link.script != [] && s.link.script[0] == Matched(c, b)
    requires |SplitLines(b)| <= 2
    ensures SendCommand(s, cmd).1 == Ok([])
  {
    PromptSetsIdentity(s.(link := SendLine(s.link, cmd)), c, b);
  }

  /**
   * `enable` switches to the privileged prompt before it sends `enable`, so
   * the wait is already for `prompt1`; `enabled` is set only once the
   * command went through, and a rejected `enable` leaves `prompt1` active.
   */
  lemma EnableOrder(s: Session)
    ensures var (t, r) := Enable(s);
      && t.link.log == s.link.log + [Sent("enable"), Awaited(Patterns(Prompt1))]
      && t.prompt == Prompt1
      && t.enabled == (if r.Ok? then Some(1) else s.enabled)
  {
    SendCommandLog(s.(prompt := Prompt1), "enable");
  }

  /** `disable` switches back to `prompt0` before it sends `exit`. */
  lemma DisableOrder(s: Session)
    ensures var (t, r) := Disable(s);
      && t.link.log == s.link.log + [Sent("exit"), Awaited(Patterns(Prompt0))]
      && t.prompt == Prompt0
      && t.enabled == (if r.Ok? then Some(0) else s.enabled)
  {
    SendCommandLog(s.(prompt := Prompt0), "exit");
  }

  lemma {:induction false} DialogueAppend(a: seq<string>, b: seq<string>, prompt: Pattern)
    ensures Dialogue(a + b, prompt) == Dialogue(a, prompt) + Dialogue(b, prompt)
  {
    if a != [] {
      assert (a + b)[1..] == a[1..] + b;
      DialogueAppend(a[1..], b, prompt);
    } else {
      assert a + b == b;
    }
  }

  /** Running commands changes neither the prompt nor the privilege level. */
  lemma {:induction false} RunCommandsKeepsPrompt(s: Session, body: seq<string>)
    ensures RunCommands(s, body).0.prompt == s.prompt
    ensures RunCommands(s, body).0.enabled == s.enabled
    decreases |body|
  {
    if body != [] {
      var c := SendCommand(s, body[0]);
      SendCommandLog(s, body[0]);
      if c.1.Ok? {
        RunCommandsKeepsPrompt(c.0, body[1..]);
      }
    }
  }

  /**
   * Running commands that all go through sends them one after another, each
   * followed by the wait for the prompt.
   */
  lemma {:induction false} RunCommandsLog(s: Session, body: seq<string>)
    requires RunCommands(s, body).1.Ok?
    ensures RunCommands(s, body).0.link.log == s.link.log + Dialogue(body, s.prompt)
    decreases |body|
  {
    if body != [] {
      var c := SendCommand(s, body[0]);
      SendCommandLog(s, body[0]);
      RunCommandsLog(c.0, body[1..]);
    }
  }

  /** `after` extends `before` by the dialogue of a non-empty prefix of `lines`. */
  ghost predicate StoppedAfterPrefix(before: seq<Event>, after: seq<Event>, lines: seq<string>, prompt: Pattern) {
    exists k :: 1 <= k <= |lines| && after == before + Dialogue(lines[..k], prompt)
  }

  /**
   * A run that raises stops right after the command that raised: it has
   * sent a non-empty prefix of the commands and nothing else.
   */
  lemma {:induction false} RunCommandsStops(s: Session, body: seq<string>)
    requires RunCommands(s, body).1.Raised?
    ensures StoppedAfterPrefix(s.link.log, RunCommands(s, body).0.link.log, body, s.prompt)
    decreases |body|
  {
    var c := SendCommand(s, body[0]);
    SendCommandLog(s, body[0]);
    if c.1.Raised? {
      assert body[..1] == [body[0]];
      assert RunCommands(s, body).0.link.log == s.link.log + Dialogue(body[..1], s.prompt);
    } else {
      assert RunCommands(s, body) == RunCommands(c.0, body[1..]);
      RunCommandsStops(c.0, body[1..]);
      PrefixStep(s.link.log, c.0.link.log, RunCommands(c.0, body[1..]).0.link.log, body, s.prompt);
    }
  }

  lemma PrefixStep(before: seq<Event>, mid: seq<Event>, after: seq<Event>, lines: seq<string>, prompt: Pattern)
    requires lines != []
    requires mid == before + [Sent(lines[0]), Awaited(Patterns(prompt))]
    requires StoppedAfterPrefix(mid, after, lines[1..], prompt)
    ensures StoppedAfterPrefix(before, after, lines, prompt)
  {
    var k :| 1 <= k <= |lines[1..]| && after == mid + Dialogue(lines[1..][..k], prompt);
    assert lines[..k + 1][1..] == lines[1..][..k];
    assert after == before + Dialogue(lines[..k + 1], prompt);
  }

  /** Running `a + b` runs `a`, then `b` unless `a` raised. */
  lemma {:induction false} RunCommandsAppend(s: Session, a: seq<string>, b: seq<string>)
    ensures RunCommands(s, a + b) ==
      (var first := RunCommands(s, a); if first.1.Raised? then first else RunCommands(first.0, b))
    decreases |a|
  {
    if a == [] {
      assert a + b == b;
    } else {
      assert (a + b)[0] == a[0] && (a + b)[1..] == a[1..] + b;
      var c := SendCommand(s, a[0]);
      if c.1.Ok? {
        RunCommandsAppend(c.0, a[1..], b);
      }
    }
  }

  /**
   * `with context(cmd): body` is the command sequence `cmd`, the body,
   * `exit`, stopped at the first call that raises: `exit` is sent only after
   * `cmd` and the whole body went through.
   */
  lemma ContextIsSequence(s: Session, cmd: string, body: seq<string>)
    ensures Context(s, cmd, body) == RunCommands(s, [cmd] + body + ["exit"])
  {
    var enter := SendCommand(s, cmd);
    RunCommandsAppend(s, [cmd], body + ["exit"]);
    assert [cmd] + body + ["exit"] == [cmd] + (body + ["exit"]);
    assert [cmd][1..] == [];
    if enter.1.Ok? {
      RunCommandsAppend(enter.0, body, ["exit"]);
      var inner := RunCommands(enter.0, body);
      if inner.1.Ok? {
        assert ["exit"][1..] == [];
      }
    }
  }

  /**
   * When it completes, a context has sent exactly `cmd`, the body and
   * `exit`, each followed by the wait for the prompt; when it raises, it has
   * sent a non-empty prefix of that sequence.
   */
  lemma ContextLog(s: Session, cmd: string, body: seq<string>)
    ensures var plan := [cmd] + body + ["exit"];
      var (t, r) := Context(s, cmd, body);
      && (r.Ok? ==> t.link.log == s.link.log + Dialogue(plan, s.prompt))
      && (r.Raised? ==> StoppedAfterPrefix(s.link.log, t.link.log, plan, s.prompt))
  {
    var plan := [cmd] + body + ["exit"];
    ContextIsSequence(s, cmd, body);
    if Context(s, cmd, body).1.Ok? {
      RunCommandsLog(s, plan);
    } else {
      RunCommandsStops(s, plan);
    }
  }

  /** `vlan_database` sends the same sequence a context of `vlan database` would. */
  lemma VlanDatabaseIsContext(s: Session, body: seq<string>)
    ensures VlanDatabase(s, body) == Context(s, "vlan database", body)
  {
  }

  /** Without a password `login` waits for nothing and sends nothing. */
  lemma LoginWithoutPassword(s: Session)
    requires s.password.None?
    ensures Login(s) == (s, Ok(()))
  {
  }

  /** With a password `login` waits for `password:`, then sends the password. */
  lemma LoginWithPassword(s: Session, c: Captures, b: string)
    requires s.password.Some?
    requires s.link.script != [] && s.link.script[0] == Matched(c, b)
    ensures var (t, r) := Login(s);
      && r == Ok(())
      && t.link.log == s.link.log + [Awaited(Patterns(PasswordPrompt)), Sent(s.password.value)]
      && t.link.script == s.link.script[1..]
  {
    ExpectOutcome(s, PasswordPrompt);
  }

  /**
   * A new `Switch` starts under `prompt0` with `hostname` set to the ssh
   * target; when the first prompt arrives, `hostname` is overwritten by the
   * prompt's `name` group and `mode` is `None`.
   */
  lemma OpenReadsHostname(hostname: string, user: string, c: Captures, b: string, spawned: Link)
    requires spawned.script != [] && spawned.script[0] == Matched(c, b)
    ensures var (t, r) := Connect(Initial(hostname, user, None, spawned), spawned);
      && r == Ok(())
      && t.hostname == NonEmpty(c.name) && t.mode == None && t.prompt == Prompt0
      && t.link.log == spawned.log + [Awaited(Patterns(Prompt0))]
  {
    PromptSetsIdentity(Initial(hostname, user, None, spawned), c, b);
  }

  /**
   * With a password, the first reply answers `password:` and the password
   * is sent; the second reply is the first prompt, whose `name` group
   * overwrites `hostname`, with `mode` `None`.
   */
  lemma OpenWithPasswordReadsHostname(hostname: string, user: string, pw: string,
                                      c0: Captures, b0: string, c: Captures, b: string, spawned: Link)
    requires |spawned.script| >= 2
    requires spawned.script[0] == Matched(c0, b0) && spawned.script[1] == Matched(c, b)
    ensures var (t, r) := Connect(Initial(hostname, user, Some(pw), spawned), spawned);
      && r == Ok(())
      && t.hostname == NonEmpty(c.name) && t.mode == None && t.prompt == Prompt0
      && t.link.log == spawned.log + [Awaited(Patterns(PasswordPrompt)), Sent(pw), Awaited(Patterns(Prompt0))]
  {
    var s := Initial(hostname, user, Some(pw), spawned);
    LoginWithPassword(s, c0, b0);
    var l := Login(s);
    ExpectOutcome(s, PasswordPrompt);
    assert l.0.prompt == Prompt0;
    assert l.0.link.script == spawned.script[1..];
    PromptSetsIdentity(l.0, c, b);
    ExpectOutcome(l.0, Prompt0);
  }

  /** A `get_*` method on a table reads the table out of the command's output. */
  lemma GetTableOutput(s: Session, cmd: string, c: Captures, echo: string, out: seq<string>, last: string)
    requires s.prompt !in ReError
    requires NoLineBreak(echo) && NoLineBreak(last)
    requires forall k :: 0 <= k < |out| ==> NoLineBreak(out[k])
    requires s.link.script != [] && s.link.script[0] == Matched(c, JoinLines([echo] + out + [last]))
    ensures GetTable(s, cmd).1 == Ok(Table(out))
  {
    SendCommandOutput(s, cmd, c, echo, out, last);
  }

  /** A `get_*` method on dotted fields reads them out of the command's output. */
  lemma GetFieldsOutput(s: Session, cmd: string, c: Captures, echo: string, out: seq<string>, last: string)
    requires s.prompt !in ReError
    requires NoLineBreak(echo) && NoLineBreak(last)
    requires forall k :: 0 <= k < |out| ==> NoLineBreak(out[k])
    requires s.link.script != [] && s.link.script[0] == Matched(c, JoinLines([echo] + out + [last]))
    ensures GetFields(s, cmd).1 == Ok(DottedTable(out))
  {
    SendCommandOutput(s, cmd, c, echo, out, last);
  }
}
