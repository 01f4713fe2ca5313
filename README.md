# py-m4100 in Dafny

A model of the core of `py-m4100`, a small Python driver that runs commands on
a Netgear M4100 switch over an ssh session and parses what the switch prints.
It has two parts:

- **The text-table parsers** (`m4100/utils.py`). `parse_dotted_table` reads
  `name.... value` lines into a map. `parse_fixed_width_table` reads a table
  whose columns are marked by the runs of dashes of a separator line, with
  labels folded from the header lines above it. Module `Utils` holds them:
  each parser is a method with the source's loops, proved equal to a
  specification function. The lemmas beside it state what the parsers
  promise. Module `TestVectors` proves the repository's test cases about
  the same functions.
- **The session driver** (class `Switch` in `m4100/__init__.py`). Module
  `Protocol` states every operation as a function from the session before
  the call to the session after it, plus what the call returned or raised.
  It also proves what the operations promise: errors are raised before the
  identity update, the identity is read off the prompt, `send_command`
  drops the echo and prompt lines, `enable`/`disable` swap the prompt before
  sending, and contexts send their enter and exit commands. Module `M4100`
  holds the classes:
  - `Switch` keeps the source's fields and updates them in place.
  - `Child` is a scripted stand-in for the pexpect child. Each wait takes
    the next reply of its script: the awaited pattern matched (with its
    `name`/`mode` groups and the text before it), error pattern *k*
    matched, or the wait failed. It also logs every line sent and every
    wait.

  Every method is proved to follow its `Protocol` function.

Module `Text` models the Python string operations the code relies on:
`isspace`, `strip`, `lower`, clamped slicing, `" ".join`, `reversed` and
`splitlines`. Module `Wrappers` holds `Option`.

Three points about the code that a reader might not expect:

- **Dotted lines need at least three dots.** The pattern `RE_DOTTED_LINE`
  is `(?P<name>[^.]+)\.\.\.\.*( (?P<value>.*))?`, so a name followed by two dots does not
  match.
- **`exit` is not sent when a context body raises.** The generators behind
  `context` and `vlan_database` have no `try`/`finally`, so when the body
  raises, `exit` is never sent (`Protocol.ContextIsSequence`).
- **Header labels are only outer-stripped.** An empty middle fragment
  leaves a double space inside the label.

## Model

| member | source | states |
|---|---|---|
| Utils.DottedMatchIff | m4100/utils.py:6 | a line matches `RE_DOTTED_LINE` exactly when it starts with a non-empty dot-free name followed by at least three dots |
| Utils.DottedName | m4100/utils.py:6-13 | the name of a match is the whole text before the first dot, untrimmed and case kept, and never empty |
| Utils.DottedMatchIsRendered | m4100/utils.py:6 | every match is read off a line made of the name, three or more dots, and an optional space and value; what follows it is nothing, a newline after a value, or neither a dot nor a space when there is no value |
| Utils.ParseRenderedDotted | m4100/utils.py:6-13 | reading a rendered field (a name, three or more dots, and an optional ` value`) gives back exactly that name and value; a bare dot run gives `None` |
| Utils.ParseDottedTable | m4100/utils.py:9-16 | the loop builds the map `DottedTable` gives for the lines |
| Utils.DottedTableKeys | m4100/utils.py:10-14 | the keys of the map are exactly the names of the matching lines (both directions) |
| Utils.DottedTableLastWins | m4100/utils.py:14 | the value stored under a name is the one from the last line that matches with that name |
| Utils.SeparatorFrom | m4100/utils.py:28-33 | the separator is the first line starting with `-`, and there is none exactly when no line starts with `-` |
| Utils.FindSeparator | m4100/utils.py:28-33 | the for-else search finds that first separator line, or reports that there is none |
| Utils.FindDashRuns | m4100/utils.py:35-37 | the scan collects the dash runs `DashRuns` gives, left to right |
| Utils.DashRunsAreMaximal | m4100/utils.py:36-37 | the column spans are non-empty maximal dash runs in strictly increasing order, with at least one non-dash between neighbours, and every dash of the separator lies in one of them |
| Utils.FirstColumnAtZero | m4100/utils.py:29-37 | the separator starts with `-`, so the first column starts at offset 0 |
| Utils.HeaderBlock | m4100/utils.py:40-42 | the header block above the separator is a run of non-blank lines, bounded by a blank line or the top |
| Utils.HeaderStartOfBlock | m4100/utils.py:40-42 | conversely, any run of non-blank lines ending at the separator and bounded by a blank line or the top is the header block |
| Utils.CollectHeaders | m4100/utils.py:39-44 | the upward walk collects, for each column, the stripped fragments of the header lines, nearest first |
| Utils.AppendFragments | m4100/utils.py:43-44 | one step of the walk appends the line's stripped fragment under each column to that column's list, and changes nothing else |
| Utils.ReversedCollected | m4100/utils.py:46 | reversing what the walk collected gives the fragments top to bottom |
| Utils.FoldedHeadersAreLabels | m4100/utils.py:46 | folding the collected fragments gives each column's label: fragments joined by single spaces, outer-stripped, lower-cased |
| Utils.ShortLineCell | m4100/utils.py:49 | a line ending before a column starts gives `""` in that column |
| Utils.ParseFixedWidthTable | m4100/utils.py:19-52 | the method, loop by loop, builds the rows `Table` gives for the lines |
| Utils.TableEmptyIff | m4100/utils.py:28-33 | there are no rows exactly when no line starts with `-` or the first such line is the last line |
| Utils.TableRows | m4100/utils.py:48-50 | one row per line after the separator (blank and dash lines included), built from that line's stripped cells under the labels |
| Utils.RowKeys | m4100/utils.py:50 | the keys of a row are exactly the labels |
| Utils.RowCell | m4100/utils.py:50 | a column whose label no later column repeats maps that label to its own cell |
| Utils.DistinctLabelsRow | m4100/utils.py:50 | with distinct labels, a row maps every label to its column's cell and has no other key |
| Utils.NoHeaderLabels | m4100/utils.py:39-46 | with no header lines every label is `""` |
| Utils.SameLabelRow | m4100/utils.py:50 | when all labels are equal, a row holds only the last column's cell |
| Text.StripEmptyIff | m4100/utils.py:41 | `not line.strip()` holds exactly of the all-whitespace lines |
| Text.StripIsTrimmedInfix | m4100/utils.py:44 | `strip` keeps a contiguous piece of the text, with only whitespace around it, which neither starts nor ends with whitespace |
| Text.SplitJoinLines | m4100/__init__.py:72 | `splitlines` gives back the lines of text made of break-free lines, each closed by a newline |
| TestVectors.DottedExample1 | tests/test_parse_dotted_table.py:6-13 | three dotted lines give `{"one": "foo", "two": "bar", "three": "baz"}` |
| TestVectors.DottedExample2 | tests/test_parse_dotted_table.py:14-21 | `two....` with no value maps `two` to `None` |
| TestVectors.FixedExample1 | tests/test_parse_fixed_width_table.py:6-15 | a one-line header gives one row `{"one": "foo", "two": "bar", "three": "baz"}` |
| TestVectors.FixedExample2 | tests/test_parse_fixed_width_table.py:16-25 | a blank middle cell gives `""` under `two` |
| TestVectors.FixedExample3 | tests/test_parse_fixed_width_table.py:26-39 | text above the blank line is not part of any label |
| TestVectors.FixedExample4 | tests/test_parse_fixed_width_table.py:40-51 | a three-line header folds into `long column one`, `long column two` and `three` |
| Protocol.ExpectOutcome | m4100/__init__.py:50-55 | a wait is logged and takes one reply. A prompt match succeeds and records the match. Error pattern *k* raises `CommandExecutionError` with that match and the text before it. A failure or a silent device raises a transport error. Only the transport changes |
| Protocol.ExpectErrorIff | m4100/__init__.py:52-55 | `expect` raises `CommandExecutionError` exactly when an error pattern matched |
| Protocol.ErrorKeepsIdentity | m4100/__init__.py:36-38 | when the wait for the prompt raises, hostname, mode, prompt and privilege level are left unchanged |
| Protocol.PromptSetsIdentity | m4100/__init__.py:36-45 | a prompt match sets `hostname` from the `name` group and `mode` from the `mode` group, each `None` when absent or empty; under `prompt0`, `mode` is `None` |
| Protocol.Prompt0ClearsMode | m4100/__init__.py:43-45 | under `prompt0`, a successful `expect_prompt` always clears `mode` |
| Protocol.SendCommandLog | m4100/__init__.py:67-70 | `send_command` sends the command and then waits for the active prompt, whatever the outcome; only the transport and the identity change |
| Protocol.SendCommandErrorKeepsIdentity | m4100/__init__.py:67-70 | a `send_command` that raises leaves hostname and mode unchanged |
| Protocol.SendCommandOutput | m4100/__init__.py:71-72 | when the text before the prompt is the echo, the output lines and the prompt line, `send_command` returns exactly the output lines |
| Protocol.SendCommandNoOutput | m4100/__init__.py:71-74 | no text, or text of at most two lines, gives an empty result |
| Protocol.MiddleLines | m4100/__init__.py:72 | `[1:-1]` is empty for at most two lines and otherwise keeps the lines between the first and the last |
| Protocol.EnableOrder | m4100/__init__.py:76-80 | `enable` sends `enable` and then waits for `prompt1`, which stays active afterwards; `enabled` becomes 1 only when the command went through |
| Protocol.DisableOrder | m4100/__init__.py:82-86 | `disable` sends `exit` and then waits for `prompt0`, which stays active afterwards; `enabled` becomes 0 only when the command went through |
| Protocol.RunCommandsKeepsPrompt | m4100/__init__.py:104-110 | running commands inside a block changes neither the prompt nor the privilege level |
| Protocol.RunCommandsLog | m4100/__init__.py:104-110 | commands that all succeed are sent in order, each followed by the wait for the prompt |
| Protocol.RunCommandsStops | m4100/__init__.py:104-110 | a run of commands that raises has sent a non-empty prefix of them and nothing more |
| Protocol.RunCommandsAppend | m4100/__init__.py:107-110 | running two command lists one after the other means running the second only when the first did not raise |
| Protocol.ContextIsSequence | m4100/__init__.py:104-110 | a context runs `cmd`, the body and `exit`, stopping at the first call that raises, so `exit` is sent only after `cmd` and the whole body succeeded |
| Protocol.ContextLog | m4100/__init__.py:104-110 | a completed context has sent exactly `cmd`, the body and `exit`, each followed by its wait; one that raised has sent a non-empty prefix of that sequence |
| Protocol.VlanDatabaseIsContext | m4100/__init__.py:88-92 | `vlan_database` behaves exactly like a context of `vlan database` |
| Protocol.LoginWithoutPassword | m4100/__init__.py:62-63 | without a password, `login` waits for nothing and sends nothing |
| Protocol.LoginWithPassword | m4100/__init__.py:62-65 | with a password, `login` waits for `password:` and then sends the password |
| Protocol.OpenReadsHostname | m4100/__init__.py:28-34 | a new switch without a password starts under `prompt0` with the ssh target as `hostname`, and the first prompt overwrites `hostname` with its `name` group |
| Protocol.OpenWithPasswordReadsHostname | m4100/__init__.py:57-65 | with a password, `connect` waits for `password:`, sends the password, then waits for `prompt0`; that second reply overwrites `hostname` with its `name` group and sets `mode` to `None` |
| Protocol.GetTableOutput | m4100/__init__.py:112-114 | a table query returns `parse_fixed_width_table` of exactly the output lines between the echo and the prompt |
| Protocol.GetFieldsOutput | m4100/__init__.py:120-122 | a dotted query returns `parse_dotted_table` of exactly the output lines between the echo and the prompt |
| M4100.Child.SendLine | m4100/__init__.py:65 | `sendline` appends the line to the transport's log |
| M4100.Child.Expect | m4100/__init__.py:51 | `child.expect` takes the next reply: the index of the matching pattern with its match and text, or the failure |
| M4100.Switch.constructor | m4100/__init__.py:28-32 | the fields start as the arguments, with `hostname` set to the ssh target and `prompt0` active |
| M4100.Switch.Expect | m4100/__init__.py:50-55 | `expect` follows `Protocol.Expect` |
| M4100.Switch.ExpectPrompt | m4100/__init__.py:36-48 | `expect_prompt` follows `Protocol.ExpectPrompt` |
| M4100.Switch.Login | m4100/__init__.py:62-65 | `login` follows `Protocol.Login` |
| M4100.Switch.Connect | m4100/__init__.py:57-60 | `connect` on the spawned child follows `Protocol.Connect` |
| M4100.Switch.SendCommand | m4100/__init__.py:67-74 | `send_command` follows `Protocol.SendCommand` |
| M4100.Switch.Enable | m4100/__init__.py:76-80 | `enable` follows `Protocol.Enable` |
| M4100.Switch.Disable | m4100/__init__.py:82-86 | `disable` follows `Protocol.Disable` |
| M4100.Switch.RunCommands | m4100/__init__.py:104-110 | the body of a `with` block follows `Protocol.RunCommands` |
| M4100.Switch.Context | m4100/__init__.py:104-110 | `with context(cmd)` follows `Protocol.Context` |
| M4100.Switch.Configure | m4100/__init__.py:94-97 | `with configure()` is a context of `configure` |
| M4100.Switch.Interface | m4100/__init__.py:99-102 | `with interface(x)` is a context of `interface x` |
| M4100.Switch.VlanDatabase | m4100/__init__.py:88-92 | `with vlan_database()` follows `Protocol.VlanDatabase` |
| M4100.Switch.GetVlans | m4100/__init__.py:112-114 | the fixed-width table of `show vlan` |
| M4100.Switch.GetVlan | m4100/__init__.py:116-118 | the fixed-width table of `show vlan <vid>` |
| M4100.Switch.GetHardware | m4100/__init__.py:120-122 | the dotted table of `show hardware`, filtered to the lines with three dots |
| M4100.Switch.GetSysinfo | m4100/__init__.py:124-126 | the dotted table of `show sysinfo`, filtered to the lines with three dots |
| M4100.Switch.GetPorts | m4100/__init__.py:128-130 | the fixed-width table of `show port all` |
| M4100.Switch.GetPortStatus | m4100/__init__.py:132-134 | the fixed-width table of `show port status all` |
| M4100.Switch.GetVersion | m4100/__init__.py:136-138 | the dotted table of `show version` |
| M4100.Switch.GetInterfaceStats | m4100/__init__.py:140-142 | the dotted table of `show interface <name>` |
| M4100.Open | m4100/__init__.py:28-34 | `Switch(hostname, user, password)` sets the fields, then connects on the spawned child as `Protocol.Connect` says |

## Left out

- The ssh process and pexpect are not modelled: no `pexpect.spawn`, no stream buffering, no search for the earliest match, no timeouts. The spawned child is a parameter (`Child`, answering from a script), and a wait on an exhausted script raises `Timeout`.
- Regular expression matching of the prompts and error patterns is the transport's job. The model keeps which pattern matched and which groups it declares: `name` for `prompt0`, `name` and `mode` for `prompt1`, none for the others.
- What pexpect stores in `match` and `before` after a failed wait is not modelled; the model leaves them as they were, and the driver never reads them after an exception.
- Logging (`LOG.debug`, `LOG.info`) is left out.
- Bytes are modelled as text: `.decode()` is the identity.
- `strip`, `isspace` and `lower` are modelled on ASCII. `splitlines` breaks at `\n`, `\r`, `\r\n`, `\v`, `\f`, `\x1c` to `\x1e`, `\x85`, `\u2028` and `\u2029`.
- The generator mechanics of `contextlib` are not modelled: the body of a `with` block is the list of commands it sends through `send_command`, with their output discarded. Arbitrary Python in a body is not modelled.
- Protocol.SendCommand: returns the empty list where the source returns the empty string `""` on no captured text. Both parsers read the two the same way.
- `enabled` is absent from a new `Switch` until `enable` or `disable` runs. The model writes this as `None`.
- Exceptions are modelled as a returned `Result` that every caller passes on unchanged. The arguments a `CommandExecutionError` carries besides `match` and `before` (none are given) are left out.
- `get_vlan(vid)` and `get_interface_stats(interface)` format their argument with an f-string; the model takes the formatted text.
