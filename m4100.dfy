/**
 * Class `Switch` of `m4100/__init__.py` and the pexpect child it drives.
 *
 * The child is a scripted transport (`Child`); the switch keeps the fields
 * the source keeps and updates them in place. Every method is proved to
 * take the session from state `old(State())` to the state, and the result
 * or exception, that the matching function of module `Protocol` gives.
 */
module M4100 {
  import opened Wrappers
  import opened Text
  import opened Utils
  import opened Protocol

  /** The pexpect child of the ssh session, answering from a script. */
  class Child {
    var script: seq<Reply>
    var log: seq<Event>
    var matched: Option<MatchObject>
    var before: string

    ghost function View(): Link
      reads this
    {
      Link(script, log, matched, before)
    }

    /** A child that will answer its waits with `script`, in order. */
    constructor (script: seq<Reply>)
      ensures View() == Link(script, [], None, "")
    {
      this.script := script;
      log := [];
      matched := None;
      before := "";
    }

    /** `child.sendline(line)`. */
    method SendLine(line: string)
      modifies this
      ensures View() == Protocol.SendLine(old(View()), line)
    {
      log := log + [Sent(line)];
    }

    /** `child.expect(patterns)`: the index of the pattern that matched, or the failure. */
    method Expect(patterns: seq<Pattern>) returns (r: Result<nat>)
      requires |patterns| == 1 + |ReError|
      modifies this
      ensures (View(), r) == Wait(old(View()), patterns)
    {
      log := log + [Awaited(patterns)];
      if script == [] {
        return Raised(TransportError(Timeout));
      }
      var reply := script[0];
      script := script[1..];
      match reply
      case Failed(f) =>
        r := Raised(TransportError(f));
      case Matched(c, b) =>
        matched := Some(MatchObject(patterns[0], GroupDict(patterns[0], c)));
        before := b;
        r := Ok(0);
      case MatchedError(k, b) =>
        matched := Some(MatchObject(patterns[1 + k], map[]));
        before := b;
        r := Ok(1 + k);
    }
  }

  class Switch {
    var user: string
    var password: Option<string>
    var hostname: Option<string>
    var mode: Option<string>
    var prompt: Pattern
    var enabled: Option<int>
    var child: Child

    ghost function State(): Session
      reads this, child
    {
      Session(user, password, hostname, mode, prompt, enabled, child.View())
    }

    /** `__init__` up to the call of `connect()`; see `Open` for the whole constructor. */
    constructor (hostname: string, user: string, password: Option<string>, spawned: Child)
      ensures child == spawned
      ensures State() == Initial(hostname, user, password, spawned.View())
    {
      this.user := user;
      this.password := password;
      this.hostname := Some(hostname);
      mode := None;
      prompt := Prompt0;
      enabled := None;
      child := spawned;
    }

    /** `expect(what)`. */
    method Expect(what: Pattern) returns (r: Result<()>)
      modifies child
      ensures (State(), r) == Protocol.Expect(old(State()), what)
    {
      var i := child.Expect([what] + ReError);
      if i.Raised? {
        return Raised(i.error);
      }
      if child.matched.Some? && child.matched.value.re in ReError {
        return Raised(CommandExecutionError(child.matched.value, child.before));
      }
      return Ok(());
    }

    /** `expect_prompt()`. */
    method ExpectPrompt() returns (r: Result<()>)
      modifies this, child
      ensures child == old(child)
      ensures (State(), r) == Protocol.ExpectPrompt(old(State()))
    {
      r := Expect(prompt);
      if r.Raised? {
        return;
      }
      if child.matched.Some? {
        var groups := child.matched.value.groups;
        hostname := GroupValue(groups, "name");
        mode := GroupValue(groups, "mode");
      } else {
        hostname := None;
        mode := None;
      }
    }

    /** `login()`. */
    method Login() returns (r: Result<()>)
      modifies child
      ensures (State(), r) == Protocol.Login(old(State()))
    {
      if password.None? {
        return Ok(());
      }
      r := Expect(PasswordPrompt);
      if r.Raised? {
        return;
      }
      child.SendLine(password.value);
    }

    /** `connect()`, on the child the ssh process was spawned as. */
    method Connect(spawned: Child) returns (r: Result<()>)
      modifies this, spawned
      ensures child == spawned
      ensures (State(), r) == Protocol.Connect(old(State()), old(spawned.View()))
    {
      child := spawned;
      r := Login();
      if r.Raised? {
        return;
      }
      r := ExpectPrompt();
    }

    /** `send_command(cmd)`. */
    method SendCommand(cmd: string) returns (r: Result<seq<string>>)
      modifies this, child
      ensures child == old(child)
      ensures (State(), r) == Protocol.SendCommand(old(State()), cmd)
    {
      child.SendLine(cmd);
      var e := ExpectPrompt();
      if e.Raised? {
        return Raised(e.error);
      }
      if child.before != "" {
        return Ok(MiddleLines(SplitLines(child.before)));
      }
      return Ok([]);
    }

    /** `enable()`. */
    method Enable() returns (r: Result<()>)
      modifies this, child
      ensures child == old(child)
      ensures (State(), r) == Protocol.Enable(old(State()))
    {
      prompt := Prompt1;
      var c := SendCommand("enable");
      if c.Raised? {
        return Raised(c.error);
      }
      enabled := Some(1);
      return Ok(());
    }

    /** `disable()`. */
    method Disable() returns (r: Result<()>)
      modifies this, child
      ensures child == old(child)
      ensures (State(), r) == Protocol.Disable(old(State()))
    {
      prompt := Prompt0;
      var c := SendCommand("exit");
      if c.Raised? {
        return Raised(c.error);
      }
      enabled := Some(0);
      return Ok(());
    }

    /** The body of a `with` block: its commands, until one raises. */
    method RunCommands(body: seq<string>) returns (r: Result<()>)
      modifies this, child
      ensures child == old(child)
      ensures (State(), r) == Protocol.RunCommands(old(State()), body)
    {
      for i := 0 to |body|
        invariant child == old(child)
        invariant Protocol.RunCommands(State(), body[i..]) == Protocol.RunCommands(old(State()), body)
      {
        assert body[i..][1..] == body[i + 1..];
        var c := SendCommand(body[i]);
        if c.Raised? {
          return Raised(c.error);
        }
      }
      return Ok(());
    }

    /** `with context(cmd): body`. */
    method Context(cmd: string, body: seq<string>) returns (r: Result<()>)
      modifies this, child
      ensures child == old(child)
      ensures (State(), r) == Protocol.Context(old(State()), cmd, body)
    {
      var enter := SendCommand(cmd);
      if enter.Raised? {
        return Raised(enter.error);
      }
      r := RunCommands(body);
      if r.Raised? {
        return;
      }
      var leave := SendCommand("exit");
      if leave.Raised? {
        return Raised(leave.error);
      }
      return Ok(());
    }

    /** `with configure(): body`. */
    method Configure(body: seq<string>) returns (r: Result<()>)
      modifies this, child
      ensures child == old(child)
      ensures (State(), r) == Protocol.Configure(old(State()), body)
    {
      r := Context("configure", body);
    }

    /** `with interface(name): body`. */
    method Interface(name: string, body: seq<string>) returns (r: Result<()>)
      modifies this, child
      ensures child == old(child)
      ensures (State(), r) == Protocol.Interface(old(State()), name, body)
    {
      r := Context("interface " + name, body);
    }

    /** `with vlan_database(): body`. */
    method VlanDatabase(body: seq<string>) returns (r: Result<()>)
      modifies this, child
      ensures child == old(child)
      ensures (State(), r) == Protocol.VlanDatabase(old(State()), body)
    {
      var enter := SendCommand("vlan database");
      if enter.Raised? {
        return Raised(enter.error);
      }
      r := RunCommands(body);
      if r.Raised? {
        return;
      }
      var leave := SendCommand("exit");
      if leave.Raised? {
        return Raised(leave.error);
      }
      return Ok(());
    }

    /** `parse_fixed_width_table(send_command(cmd))`. */
    method ReadTable(cmd: string) returns (r: Result<seq<map<string, string>>>)
      modifies this, child
      ensures child == old(child)
      ensures (State(), r) == GetTable(old(State()), cmd)
    {
      var out := SendCommand(cmd);
      if out.Raised? {
        return Raised(out.error);
      }
      var rows := ParseFixedWidthTable(out.value);
      return Ok(rows);
    }

    /** `parse_dotted_table(send_command(cmd))`. */
    method ReadFields(cmd: string) returns (r: Result<map<string, Option<string>>>)
      modifies this, child
      ensures child == old(child)
      ensures (State(), r) == GetFields(old(State()), cmd)
    {
      var out := SendCommand(cmd);
      if out.Raised? {
        return Raised(out.error);
      }
      var table := ParseDottedTable(out.value);
      return Ok(table);
    }

    method GetVlans() returns (r: Result<seq<map<string, string>>>)
      modifies this, child
      ensures child == old(child)
      ensures (State(), r) == GetTable(old(State()), ShowVlan)
    {
      r := ReadTable(ShowVlan);
    }

    method GetVlan(vid: string) returns (r: Result<seq<map<string, string>>>)
      modifies this, child
      ensures child == old(child)
      ensures (State(), r) == GetTable(old(State()), ShowVlanOf(vid))
    {
      r := ReadTable(ShowVlanOf(vid));
    }

    method GetHardware() returns (r: Result<map<string, Option<string>>>)
      modifies this, child
      ensures child == old(child)
      ensures (State(), r) == GetFields(old(State()), ShowHardware)
    {
      r := ReadFields(ShowHardware);
    }

    method GetSysinfo() returns (r: Result<map<string, Option<string>>>)
      modifies this, child
      ensures child == old(child)
      ensures (State(), r) == GetFields(old(State()), ShowSysinfo)
    {
      r := ReadFields(ShowSysinfo);
    }

    method GetPorts() returns (r: Result<seq<map<string, string>>>)
      modifies this, child
      ensures child == old(child)
      ensures (State(), r) == GetTable(old(State()), ShowPorts)
    {
      r := ReadTable(ShowPorts);
    }

    method GetPortStatus() returns (r: Result<seq<map<string, string>>>)
      modifies this, child
      ensures child == old(child)
      ensures (State(), r) == GetTable(old(State()), ShowPortStatus)
    {
      r := ReadTable(ShowPortStatus);
    }

    method GetVersion() returns (r: Result<map<string, Option<string>>>)
      modifies this, child
      ensures child == old(child)
      ensures (State(), r) == GetFields(old(State()), ShowVersion)
    {
      r := ReadFields(ShowVersion);
    }

    method GetInterfaceStats(name: string) returns (r: Result<map<string, Option<string>>>)
      modifies this, child
      ensures child == old(child)
      ensures (State(), r) == GetFields(old(State()), ShowInterface(name))
    {
      r := ReadFields(ShowInterface(name));
    }
  }

  /**
   * `Switch(hostname, user, password)`: the fields are set, then the session
   * connects on the spawned child; an exception from `connect()` is returned.
   */
  method Open(hostname: string, user: string, password: Option<string>, spawned: Child)
    returns (sw: Switch, r: Result<()>)
    modifies spawned
    ensures fresh(sw) && sw.child == spawned
    ensures (sw.State(), r) == Connect(Initial(hostname, user, password, old(spawned.View())), old(spawned.View()))
  {
    sw := new Switch(hostname, user, password, spawned);
    r := sw.Connect(spawned);
  }
}
