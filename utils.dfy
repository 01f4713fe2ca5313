/**
 * The two text-table parsers of `m4100/utils.py`.
 *
 * Each parser is a method that follows the source's loops, proved equal to a
 * specification function on the input lines; the properties the parsers
 * promise are lemmas about those functions.
 */
module Utils {
  import opened Wrappers
  import opened Text

  // ---------------------------------------------------------------------
  // Dotted tables: `name.... value`
  // ---------------------------------------------------------------------

  /** The two groups of one match of `RE_DOTTED_LINE`. */
  datatype DottedField = DottedField(name: string, value: Option<string>)

  /** The first index at or after `from` that holds a dot, or `|s|`. */
  function SkipNonDots(s: string, from: nat): (i: nat)
    requires from <= |s|
    ensures from <= i <= |s|
    ensures forall k :: from <= k < i ==> s[k] != '.'
    ensures i < |s| ==> s[i] == '.'
    decreases |s| - from
  {
    if from == |s| || s[from] == '.' then from else SkipNonDots(s, from + 1)
  }

  /** The first index at or after `from` that does not hold a dot, or `|s|`. */
  function SkipDots(s: string, from: nat): (i: nat)
    requires from <= |s|
    ensures from <= i <= |s|
    ensures forall k :: from <= k < i ==> s[k] == '.'
    ensures i < |s| ==> s[i] != '.'
    decreases |s| - from
  {
    if from == |s| || s[from] != '.' then from else SkipDots(s, from + 1)
  }

  /** The first index at or after `from` that holds `\n`, or `|s|`. */
  function SkipToNewline(s: string, from: nat): (i: nat)
    requires from <= |s|
    ensures from <= i <= |s|
    ensures forall k :: from <= k < i ==> s[k] != '\n'
    ensures i < |s| ==> s[i] == '\n'
    decreases |s| - from
  {
    if from == |s| || s[from] == '\n' then from else SkipToNewline(s, from + 1)
  }

  /**
   * `RE_DOTTED_LINE.match(line)`, the pattern
   * `(?P<name>[^.]+)\.\.\.\.*( (?P<value>.*))?` anchored at the start:
   * a non-empty run of non-dots, then at least three dots (all of the dots
   * that follow, since `\.*` is greedy), then optionally one space and the
   * value, which `.` stops at the first newline.
   */
  function MatchDottedLine(line: string): Option<DottedField> {
    var k := SkipNonDots(line, 0);
    var j := SkipDots(line, k);
    if k == 0 || j - k < 3 then None
    else
      var value := if j < |line| && line[j] == ' '
                   then Some(line[j + 1..SkipToNewline(line, j + 1)])
                   else None;
      Some(DottedField(line[..k], value))
  }

  /** The first `k` characters of the line are dot-free and `...` follows them. */
  predicate NameThenDots(line: string, k: nat) {
    0 < k && k + 3 <= |line| && line[k..k + 3] == "..."
    && forall t :: 0 <= t < k ==> line[t] != '.'
  }

  /** The line starts with a non-empty dot-free name followed by `...`. */
  ghost predicate DottedShape(line: string) {
    exists k: nat :: NameThenDots(line, k)
  }

  /** The line a device prints for a field: name, `dots` dots, and ` value`. */
  function RenderDotted(name: string, dots: nat, value: Option<string>): string {
    name + Dots(dots) + (if value.Some? then " " + value.value else "")
  }

  /** A run of `n` dots. */
  function Dots(n: nat): (d: string)
    ensures |d| == n && forall t :: 0 <= t < n ==> d[t] == '.'
  {
    if n == 0 then "" else Dots(n - 1) + "."
  }

  /** A line matches exactly when it has the dotted shape. */
  lemma DottedMatchIff(line: string)
    ensures MatchDottedLine(line).Some? <==> DottedShape(line)
  {
    var k := SkipNonDots(line, 0);
    var j := SkipDots(line, k);
    if MatchDottedLine(line).Some? {
      assert line[k..k + 3] == "...";
      assert NameThenDots(line, k);
    }
    if DottedShape(line) {
      var k': nat :| NameThenDots(line, k');
      assert line[k'] == line[k'..k' + 3][0];
      assert k == k';
      assert line[k + 1] == line[k..k + 3][1] && line[k + 2] == line[k..k + 3][2];
    }
  }

  lemma {:induction false} SkipDotsPast(s: string, from: nat, until: nat)
    requires from <= until <= |s|
    requires forall k :: from <= k < until ==> s[k] == '.'
    ensures SkipDots(s, from) >= until
    decreases until - from
  {
    if from < until {
      SkipDotsPast(s, from + 1, until);
    }
  }

  /**
   * The name of a match is the text before the first dot, exactly as the line
   * has it (neither trimmed nor lower-cased), and it is never empty.
   */
  lemma DottedName(line: string)
    requires MatchDottedLine(line).Some?
    ensures var name := MatchDottedLine(line).value.name;
      0 < |name| < |line| && name == line[..|name|] && line[|name|] == '.'
      && forall t :: 0 <= t < |name| ==> name[t] != '.'
  {
  }

  /**
   * Every match is read off a rendered field: the line is the name, a run of
   * at least three dots and the value (when there is one), followed by
   * nothing, or by a newline after a value, or by neither a dot nor a space
   * when there is no value.
   */
  lemma DottedMatchIsRendered(line: string)
    requires MatchDottedLine(line).Some?
    ensures var f := MatchDottedLine(line).value;
      exists n :: n >= 3 && |RenderDotted(f.name, n, f.value)| <= |line|
        && line[..|RenderDotted(f.name, n, f.value)|] == RenderDotted(f.name, n, f.value)
        && var rest := line[|RenderDotted(f.name, n, f.value)|..];
           if f.value.Some? then rest == [] || rest[0] == '\n'
           else rest == [] || (rest[0] != '.' && rest[0] != ' ')
  {
    var f := MatchDottedLine(line).value;
    var k := SkipNonDots(line, 0);
    var j := SkipDots(line, k);
    var n := j - k;
    var r := RenderDotted(f.name, n, f.value);
    assert line[k..j] == Dots(n);
    if f.value.Some? {
      var e := SkipToNewline(line, j + 1);
      assert r == line[..k] + line[k..j] + line[j..j + 1] + line[j + 1..e];
      assert line[..e] == r;
    } else {
      assert r == line[..k] + line[k..j];
      assert line[..j] == r;
    }
  }

  /** Reading a rendered field gives back its name and value. */
  lemma ParseRenderedDotted(name: string, dots: nat, value: Option<string>)
    requires name != [] && forall t :: 0 <= t < |name| ==> name[t] != '.'
    requires dots >= 3
    requires value.Some? ==> forall t :: 0 <= t < |value.value| ==> value.value[t] != '\n'
    ensures MatchDottedLine(RenderDotted(name, dots, value)) == Some(DottedField(name, value))
  {
    var line := RenderDotted(name, dots, value);
    var k := |name|;
    RenderedNameAndDots(name, dots, value);
    if value.Some? {
      RenderedValue(name, dots, value.value);
    } else {
      assert |line| == k + dots;
    }
  }

  /** Where the name and the dots of a rendered field end. */
  lemma RenderedNameAndDots(name: string, dots: nat, value: Option<string>)
    requires name != [] && forall t :: 0 <= t < |name| ==> name[t] != '.'
    requires dots > 0
    ensures var line := RenderDotted(name, dots, value);
      line[..|name|] == name && SkipNonDots(line, 0) == |name| && SkipDots(line, |name|) >= |name| + dots
  {
    var tail := if value.Some? then " " + value.value else "";
    NameBeforeDots(name, Dots(dots), tail);
    DotsAfterName(name, Dots(dots), tail);
  }

  lemma NameBeforeDots(name: string, d: string, tail: string)
    requires forall t :: 0 <= t < |name| ==> name[t] != '.'
    requires d != [] && d[0] == '.'
    ensures (name + d + tail)[..|name|] == name && SkipNonDots(name + d + tail, 0) == |name|
  {
    var line := name + d + tail;
    assert line[|name|] == d[0];
    forall t | 0 <= t < |name|
      ensures line[t] != '.'
    {
      assert line[t] == name[t];
    }
    SkipNonDotsAt(line, 0, |name|);
  }

  lemma DotsAfterName(name: string, d: string, tail: string)
    requires forall t :: 0 <= t < |d| ==> d[t] == '.'
    ensures SkipDots(name + d + tail, |name|) >= |name| + |d|
  {
    var line := name + d + tail;
    forall t | |name| <= t < |name| + |d|
      ensures line[t] == '.'
    {
      assert line[t] == d[t - |name|];
    }
    SkipDotsPast(line, |name|, |name| + |d|);
  }

  /** With a value, the dots stop at the space, and the value runs to the end of the line. */
  lemma RenderedValue(name: string, dots: nat, v: string)
    requires forall t :: 0 <= t < |v| ==> v[t] != '\n'
    requires SkipDots(RenderDotted(name, dots, Some(v)), |name|) >= |name| + dots
    ensures var line := RenderDotted(name, dots, Some(v));
      var j := |name| + dots;
      SkipDots(line, |name|) == j && j < |line| && line[j] == ' '
      && line[j + 1..SkipToNewline(line, j + 1)] == v
  {
    var line := RenderDotted(name, dots, Some(v));
    var j := |name| + dots;
    assert line == (name + Dots(dots)) + ([' '] + v);
    assert line[j] == ' ';
    assert line[j + 1..] == v;
    assert forall t :: j + 1 <= t < |line| ==> line[t] == v[t - (j + 1)];
    SkipToNewlineAtEnd(line, j + 1);
  }

  lemma {:induction false} SkipNonDotsAt(s: string, from: nat, i: nat)
    requires from <= i < |s| && s[i] == '.'
    requires forall k :: from <= k < i ==> s[k] != '.'
    ensures SkipNonDots(s, from) == i
    decreases i - from
  {
    if from < i {
      SkipNonDotsAt(s, from + 1, i);
    }
  }

  lemma {:induction false} SkipToNewlineAtEnd(s: string, from: nat)
    requires from <= |s|
    requires forall k :: from <= k < |s| ==> s[k] != '\n'
    ensures SkipToNewline(s, from) == |s|
    decreases |s| - from
  {
    if from < |s| {
      SkipToNewlineAtEnd(s, from + 1);
    }
  }

  /** `parse_dotted_table` on the lines read so far: each match overwrites. */
  function DottedTable(lines: seq<string>): map<string, Option<string>> {
    if lines == [] then map[]
    else
      var table := DottedTable(lines[..|lines| - 1]);
      match MatchDottedLine(lines[|lines| - 1])
      case None => table
      case Some(f) => table[f.name := f.value]
  }

  /** `parse_dotted_table(lines)`. */
  method ParseDottedTable(lines: seq<string>) returns (table: map<string, Option<string>>)
    ensures table == DottedTable(lines)
  {
    table := map[];
    for i := 0 to |lines|
      invariant table == DottedTable(lines[..i])
    {
      assert lines[..i + 1][..i] == lines[..i];
      var mo := MatchDottedLine(lines[i]);
      if mo.Some? {
        table := table[mo.value.name := mo.value.value];
      }
    }
    assert lines[..|lines|] == lines;
  }

  /** The keys of the table are exactly the names of the matching lines. */
  lemma {:induction false} DottedTableKeys(lines: seq<string>, name: string)
    ensures name in DottedTable(lines) <==>
      exists i :: 0 <= i < |lines| && MatchDottedLine(lines[i]).Some?
                  && MatchDottedLine(lines[i]).value.name == name
  {
    if lines != [] {
      var init := lines[..|lines| - 1];
      DottedTableKeys(init, name);
      forall i | 0 <= i < |init| ensures init[i] == lines[i] { }
      if name in DottedTable(lines) && name !in DottedTable(init) {
        var last := |lines| - 1;
        assert MatchDottedLine(lines[last]).Some? && MatchDottedLine(lines[last]).value.name == name;
      }
    }
  }

  /**
   * Last write wins: a matching line whose name no later line matches again
   * decides the value stored under that name.
   */
  lemma {:induction false} DottedTableLastWins(lines: seq<string>, i: nat)
    requires i < |lines| && MatchDottedLine(lines[i]).Some?
    requires forall j :: i < j < |lines| && MatchDottedLine(lines[j]).Some? ==>
               MatchDottedLine(lines[j]).value.name != MatchDottedLine(lines[i]).value.name
    ensures var f := MatchDottedLine(lines[i]).value;
      f.name in DottedTable(lines) && DottedTable(lines)[f.name] == f.value
    decreases |lines|
  {
    var init := lines[..|lines| - 1];
    if i < |lines| - 1 {
      forall j | i < j < |init| ensures init[j] == lines[j] { }
      DottedTableLastWins(init, i);
    }
  }

  // ---------------------------------------------------------------------
  // Fixed-width tables
  // ---------------------------------------------------------------------

  /** A half-open range of character offsets, `slice(start, end)`. */
  datatype Span = Span(start: nat, end: nat)

  predicate StartsWithDash(line: string) {
    |line| > 0 && line[0] == '-'
  }

  /** The index of the first line that starts with `-`, searching from `from`. */
  function SeparatorFrom(lines: seq<string>, from: nat): (m: Option<nat>)
    requires from <= |lines|
    ensures m.Some? ==> from <= m.value < |lines| && StartsWithDash(lines[m.value])
                        && forall j :: from <= j < m.value ==> !StartsWithDash(lines[j])
    ensures m.None? ==> forall j :: from <= j < |lines| ==> !StartsWithDash(lines[j])
    decreases |lines| - from
  {
    if from == |lines| then None
    else if StartsWithDash(lines[from]) then Some(from)
    else SeparatorFrom(lines, from + 1)
  }

  /** The separator line of a table: the first line that starts with `-`. */
  function Separator(lines: seq<string>): Option<nat> {
    SeparatorFrom(lines, 0)
  }

  /** The separator is the line that starts with `-` when no line before it does. */
  lemma SeparatorAt(lines: seq<string>, mark: nat)
    requires mark < |lines| && StartsWithDash(lines[mark])
    requires forall j :: 0 <= j < mark ==> !StartsWithDash(lines[j])
    ensures Separator(lines) == Some(mark)
  {
  }

  /** The for-else search of `parse_fixed_width_table` for `mark`. */
  method FindSeparator(lines: seq<string>) returns (mark: Option<nat>)
    ensures mark == Separator(lines)
  {
    for i := 0 to |lines|
      invariant SeparatorFrom(lines, i) == Separator(lines)
    {
      if StartsWithDash(lines[i]) {
        return Some(i);
      }
    }
    return None;
  }

  /** The end of the run of dashes that starts at `i`. */
  function RunEnd(s: string, i: nat): (j: nat)
    requires i <= |s|
    ensures i <= j <= |s|
    ensures forall k :: i <= k < j ==> s[k] == '-'
    ensures j < |s| ==> s[j] != '-'
    decreases |s| - i
  {
    if i < |s| && s[i] == '-' then RunEnd(s, i + 1) else i
  }

  /** A run of dashes from `i` up to a non-dash at `j`, or the end, ends at `j`. */
  lemma {:induction false} RunEndAt(s: string, i: nat, j: nat)
    requires i <= j <= |s|
    requires forall k :: i <= k < j ==> s[k] == '-'
    requires j < |s| ==> s[j] != '-'
    ensures RunEnd(s, i) == j
    decreases j - i
  {
    if i < j {
      RunEndAt(s, i + 1, j);
    }
  }

  /** The maximal runs of dashes of `s[from..]`, left to right. */
  function RunsFrom(s: string, from: nat): seq<Span>
    requires from <= |s|
    decreases |s| - from
  {
    if from == |s| then []
    else if s[from] != '-' then RunsFrom(s, from + 1)
    else
      var j := RunEnd(s, from);
      [Span(from, j)] + RunsFrom(s, j)
  }

  /** The spans of `re.finditer("-+", s)`. */
  function DashRuns(s: string): seq<Span> {
    RunsFrom(s, 0)
  }

  /** The scan that `re.finditer("-+", line)` performs, collecting `colspec`. */
  method FindDashRuns(s: string) returns (colspec: seq<Span>)
    ensures colspec == DashRuns(s)
  {
    colspec := [];
    var i := 0;
    while i < |s|
      invariant 0 <= i <= |s|
      invariant colspec + RunsFrom(s, i) == DashRuns(s)
    {
      if s[i] != '-' {
        i := i + 1;
      } else {
        var j := i;
        while j < |s| && s[j] == '-'
          invariant i <= j <= |s|
          invariant RunEnd(s, j) == RunEnd(s, i)
        {
          j := j + 1;
        }
        colspec := colspec + [Span(i, j)];
        i := j;
      }
    }
  }

  /**
   * One column span of a separator line: a non-empty run of dashes inside
   * the line that cannot be extended to either side.
   */
  ghost predicate IsMaximalRun(s: string, spec: Span) {
    && spec.start < spec.end <= |s|
    && (forall p :: spec.start <= p < spec.end ==> s[p] == '-')
    && (spec.end < |s| ==> s[spec.end] != '-')
    && (0 < spec.start ==> s[spec.start - 1] != '-')
  }

  /**
   * The column spans of a separator line, looking at `s[from..]`: maximal
   * runs, in strictly increasing order with at least one non-dash between
   * neighbours, and no dash at or after `from` outside them.
   */
  ghost predicate MaximalDashRunsFrom(s: string, from: nat, spans: seq<Span>) {
    RunsAreMaximal(s, from, spans) && RunsIncrease(spans) && RunsCover(s, from, spans)
  }

  ghost predicate RunsAreMaximal(s: string, from: nat, spans: seq<Span>) {
    forall k :: 0 <= k < |spans| ==> from <= spans[k].start && IsMaximalRun(s, spans[k])
  }

  ghost predicate RunsIncrease(spans: seq<Span>) {
    forall k, l :: 0 <= k < l < |spans| ==> spans[k].end < spans[l].start
  }

  ghost predicate RunsCover(s: string, from: nat, spans: seq<Span>) {
    forall p :: from <= p < |s| && s[p] == '-' ==>
      exists k :: 0 <= k < |spans| && spans[k].start <= p < spans[k].end
  }

  ghost predicate MaximalDashRuns(s: string, spans: seq<Span>) {
    MaximalDashRunsFrom(s, 0, spans)
  }

  lemma {:induction false} RunsFromAreMaximal(s: string, from: nat)
    requires from <= |s|
    requires from < |s| && s[from] == '-' && 0 < from ==> s[from - 1] != '-'
    ensures MaximalDashRunsFrom(s, from, RunsFrom(s, from))
    decreases |s| - from
  {
    if from < |s| {
      if s[from] != '-' {
        RunsFromAreMaximal(s, from + 1);
      } else {
        var j := RunEnd(s, from);
        assert from < j by {
          assert RunEnd(s, from) == RunEnd(s, from + 1);
        }
        RunsFromAreMaximal(s, j);
        assert IsMaximalRun(s, Span(from, j));
        MaximalRunThenRest(s, Span(from, j), RunsFrom(s, j));
      }
    }
  }

  /** A maximal run followed by the maximal runs after it. */
  lemma MaximalRunThenRest(s: string, first: Span, rest: seq<Span>)
    requires IsMaximalRun(s, first)
    requires MaximalDashRunsFrom(s, first.end, rest)
    ensures MaximalDashRunsFrom(s, first.start, [first] + rest)
  {
    MaximalThenRest(s, first, rest);
    IncreasingThenRest(s, first, rest);
    CoverThenRest(s, first, rest);
  }

  lemma MaximalThenRest(s: string, first: Span, rest: seq<Span>)
    requires IsMaximalRun(s, first) && RunsAreMaximal(s, first.end, rest)
    ensures RunsAreMaximal(s, first.start, [first] + rest)
  {
    var spans := [first] + rest;
    forall k | 0 <= k < |spans|
      ensures first.start <= spans[k].start && IsMaximalRun(s, spans[k])
    {
      if k > 0 {
        assert spans[k] == rest[k - 1];
      }
    }
  }

  lemma IncreasingThenRest(s: string, first: Span, rest: seq<Span>)
    requires IsMaximalRun(s, first) && RunsAreMaximal(s, first.end, rest) && RunsIncrease(rest)
    ensures RunsIncrease([first] + rest)
  {
    var spans := [first] + rest;
    forall k, l | 0 <= k < l < |spans|
      ensures spans[k].end < spans[l].start
    {
      assert spans[l] == rest[l - 1];
      assert IsMaximalRun(s, rest[l - 1]);
      if k > 0 {
        assert spans[k] == rest[k - 1];
      } else {
        assert s[rest[l - 1].start] == '-';
      }
    }
  }

  lemma CoverThenRest(s: string, first: Span, rest: seq<Span>)
    requires IsMaximalRun(s, first) && RunsCover(s, first.end, rest)
    ensures RunsCover(s, first.start, [first] + rest)
  {
    var spans := [first] + rest;
    forall p | first.start <= p < |s| && s[p] == '-'
      ensures exists k :: 0 <= k < |spans| && spans[k].start <= p < spans[k].end
    {
      if p < first.end {
        assert spans[0].start <= p < spans[0].end;
      } else {
        var k :| 0 <= k < |rest| && rest[k].start <= p < rest[k].end;
        assert spans[k + 1] == rest[k];
      }
    }
  }

  /** The spans `colspec` holds are the maximal dash runs of the separator. */
  lemma DashRunsAreMaximal(s: string)
    ensures MaximalDashRuns(s, DashRuns(s))
  {
    RunsFromAreMaximal(s, 0);
  }

  /** A separator line starts with `-`, so its first column starts at offset 0. */
  lemma FirstColumnAtZero(s: string)
    requires StartsWithDash(s)
    ensures DashRuns(s) != [] && DashRuns(s)[0].start == 0
  {
  }

  /** `line[spec].strip()`: one cell, or one header fragment. */
  function Cell(line: string, spec: Span): string {
    Strip(Slice(line, spec.start, spec.end))
  }

  /** `[line[spec].strip() for spec in colspec]`. */
  function Cells(line: string, colspec: seq<Span>): (row: seq<string>)
    ensures |row| == |colspec|
  {
    seq(|colspec|, c requires 0 <= c < |colspec| => Cell(line, colspec[c]))
  }

  /** A line that ends before a column starts gives `""` in that column. */
  lemma ShortLineCell(line: string, spec: Span)
    requires |line| <= spec.start
    ensures Cell(line, spec) == ""
  {
  }

  /**
   * The first line of the header block above `mark`: the walk up from the
   * separator stops at the first blank line, or at the top.
   */
  function HeaderStart(lines: seq<string>, mark: nat): (b: nat)
    requires mark <= |lines|
    ensures b <= mark
  {
    if mark == 0 || Strip(lines[mark - 1]) == "" then mark else HeaderStart(lines, mark - 1)
  }

  /**
   * The header block is non-blank line by line, and it is bounded by a blank
   * line or by the top.
   */
  lemma {:induction false} HeaderBlock(lines: seq<string>, mark: nat)
    requires mark <= |lines|
    ensures var b := HeaderStart(lines, mark);
      (forall i :: b <= i < mark ==> Strip(lines[i]) != "") && (b == 0 || Strip(lines[b - 1]) == "")
    decreases mark
  {
    if mark > 0 && Strip(lines[mark - 1]) != "" {
      HeaderBlock(lines, mark - 1);
    }
  }

  /** The fragments of one column, top to bottom, of the header block `block`. */
  function ColumnFragments(block: seq<string>, spec: Span): (frags: seq<string>)
    ensures |frags| == |block|
  {
    seq(|block|, t requires 0 <= t < |block| => Cell(block[t], spec))
  }

  /** A column's label: its fragments joined by spaces, stripped, lower-cased. */
  function HeaderLabel(block: seq<string>, spec: Span): string {
    Lower(Strip(JoinWords(ColumnFragments(block, spec))))
  }

  function Labels(block: seq<string>, colspec: seq<Span>): (labels: seq<string>)
    ensures |labels| == |colspec|
  {
    seq(|colspec|, c requires 0 <= c < |colspec| => HeaderLabel(block, colspec[c]))
  }

  /**
   * What `headers[i]` holds after the header loop has walked up from `mark`
   * to line `from`: the fragments of the lines `mark - 1` down to `from`, in
   * the order the walk appended them.
   */
  function Collected(lines: seq<string>, from: nat, mark: nat, spec: Span): seq<string>
    requires from <= mark <= |lines|
    decreases mark - from
  {
    if from == mark then [] else Collected(lines, from + 1, mark, spec) + [Cell(lines[from], spec)]
  }

  /** Reversing what the walk collected gives the fragments top to bottom. */
  lemma {:induction false} ReversedCollected(lines: seq<string>, from: nat, mark: nat, spec: Span)
    requires from <= mark <= |lines|
    ensures Reversed(Collected(lines, from, mark, spec)) == ColumnFragments(lines[from..mark], spec)
    decreases mark - from
  {
    if from < mark {
      ReversedCollected(lines, from + 1, mark, spec);
      ReversedSnoc(Collected(lines, from + 1, mark, spec), Cell(lines[from], spec));
      assert lines[from..mark][1..] == lines[from + 1..mark];
    }
  }

  /** `Collected` for every column at once. */
  function CollectedColumns(lines: seq<string>, from: nat, mark: nat, colspec: seq<Span>): (cols: seq<seq<string>>)
    requires from <= mark <= |lines|
    ensures |cols| == |colspec|
  {
    seq(|colspec|, c requires 0 <= c < |colspec| => Collected(lines, from, mark, colspec[c]))
  }

  /** The header loop of `parse_fixed_width_table`, which fills `headers`. */
  method CollectHeaders(lines: seq<string>, mark: nat, colspec: seq<Span>) returns (headers: seq<seq<string>>)
    requires mark <= |lines|
    ensures headers == CollectedColumns(lines, HeaderStart(lines, mark), mark, colspec)
  {
    headers := seq(|colspec|, c => []);
    ghost var top := HeaderStart(lines, mark);
    var i := mark;
    assert headers == CollectedColumns(lines, i, mark, colspec);
    while i > 0
      invariant top <= i <= mark
      invariant headers == CollectedColumns(lines, i, mark, colspec)
    {
      var line := lines[i - 1];
      if Strip(line) == "" {
        HeaderStartAtBlank(lines, mark, i);
        break;
      }
      HeaderStartAbove(lines, mark, i);
      CollectedGrows(lines, i, mark, colspec);
      headers := AppendFragments(headers, line, colspec);
      i := i - 1;
    }
  }

  /**
   * Conversely, a run of non-blank lines ending at `mark` that is bounded by a
   * blank line or by the top is the header block.
   */
  lemma {:induction false} HeaderStartOfBlock(lines: seq<string>, b: nat, mark: nat)
    requires b <= mark <= |lines|
    requires forall i :: b <= i < mark ==> Strip(lines[i]) != ""
    requires b == 0 || Strip(lines[b - 1]) == ""
    ensures HeaderStart(lines, mark) == b
    decreases mark
  {
    if b < mark {
      HeaderStartOfBlock(lines, b, mark - 1);
    }
  }

  /** A blank line at or below the top of the header block is the line just above it. */
  lemma HeaderStartAtBlank(lines: seq<string>, mark: nat, i: nat)
    requires 0 < i <= mark <= |lines| && HeaderStart(lines, mark) <= i
    requires Strip(lines[i - 1]) == ""
    ensures HeaderStart(lines, mark) == i
  {
    HeaderBlock(lines, mark);
  }

  /** A non-blank line at or below the top of the header block is inside it. */
  lemma HeaderStartAbove(lines: seq<string>, mark: nat, i: nat)
    requires 0 < i <= mark <= |lines| && HeaderStart(lines, mark) <= i
    requires Strip(lines[i - 1]) != ""
    ensures HeaderStart(lines, mark) <= i - 1
  {
    HeaderBlock(lines, mark);
  }

  /** Every column's fragments with one more fragment of `line` at the end. */
  function Appended(headers: seq<seq<string>>, line: string, colspec: seq<Span>): (grown: seq<seq<string>>)
    requires |headers| == |colspec|
    ensures |grown| == |colspec|
  {
    seq(|colspec|, c requires 0 <= c < |colspec| => headers[c] + [Cell(line, colspec[c])])
  }

  /** One more step of the walk appends line `i - 1`'s fragment to every column. */
  lemma CollectedGrows(lines: seq<string>, i: nat, mark: nat, colspec: seq<Span>)
    requires 0 < i <= mark <= |lines|
    ensures CollectedColumns(lines, i - 1, mark, colspec)
         == Appended(CollectedColumns(lines, i, mark, colspec), lines[i - 1], colspec)
  {
  }

  /** The inner loop of the header walk: one more fragment for every column. */
  method AppendFragments(headers: seq<seq<string>>, line: string, colspec: seq<Span>) returns (grown: seq<seq<string>>)
    requires |headers| == |colspec|
    ensures grown == Appended(headers, line, colspec)
  {
    grown := headers;
    for c := 0 to |colspec|
      invariant |grown| == |colspec|
      invariant forall d :: 0 <= d < c ==> grown[d] == headers[d] + [Cell(line, colspec[d])]
      invariant forall d :: c <= d < |colspec| ==> grown[d] == headers[d]
    {
      grown := grown[c := grown[c] + [Cell(line, colspec[c])]];
    }
  }

  /** `dict(zip(headers, row))`: later columns overwrite earlier equal labels. */
  function Row(labels: seq<string>, cells: seq<string>): map<string, string>
    requires |labels| == |cells|
  {
    if labels == [] then map[]
    else Row(labels[..|labels| - 1], cells[..|cells| - 1])[labels[|labels| - 1] := cells[|cells| - 1]]
  }

  /** One row per data line, in order. */
  function RowsOf(data: seq<string>, labels: seq<string>, colspec: seq<Span>): (rows: seq<map<string, string>>)
    requires |labels| == |colspec|
    ensures |rows| == |data|
    ensures forall t :: 0 <= t < |data| ==> rows[t] == Row(labels, Cells(data[t], colspec))
  {
    if data == [] then []
    else RowsOf(data[..|data| - 1], labels, colspec) + [Row(labels, Cells(data[|data| - 1], colspec))]
  }

  /** `parse_fixed_width_table(lines)`. */
  function Table(lines: seq<string>): seq<map<string, string>> {
    match Separator(lines)
    case None => []
    case Some(mark) =>
      var colspec := DashRuns(lines[mark]);
      var labels := Labels(lines[HeaderStart(lines, mark)..mark], colspec);
      RowsOf(lines[mark + 1..], labels, colspec)
  }

  /** Folding what the header loop collected gives the labels, column by column. */
  lemma FoldedHeadersAreLabels(lines: seq<string>, mark: nat, colspec: seq<Span>,
                               headers: seq<seq<string>>, labels: seq<string>)
    requires mark <= |lines| && |colspec| == |labels|
    requires headers == CollectedColumns(lines, HeaderStart(lines, mark), mark, colspec)
    requires forall c :: 0 <= c < |colspec| ==> labels[c] == Lower(Strip(JoinWords(Reversed(headers[c]))))
    ensures labels == Labels(lines[HeaderStart(lines, mark)..mark], colspec)
  {
    var b := HeaderStart(lines, mark);
    forall c | 0 <= c < |colspec| ensures labels[c] == Labels(lines[b..mark], colspec)[c] {
      ReversedCollected(lines, b, mark, colspec[c]);
    }
  }

  /** `parse_fixed_width_table(lines)`, loop by loop. */
  method ParseFixedWidthTable(lines: seq<string>) returns (rows: seq<map<string, string>>)
    ensures rows == Table(lines)
  {
    var found := FindSeparator(lines);
    if found.None? {
      return [];
    }
    var mark := found.value;
    var colspec := FindDashRuns(lines[mark]);
    var headers := CollectHeaders(lines, mark, colspec);
    var labels := seq(|colspec|, c requires 0 <= c < |colspec| => Lower(Strip(JoinWords(Reversed(headers[c])))));
    FoldedHeadersAreLabels(lines, mark, colspec, headers, labels);
    var data := lines[mark + 1..];
    rows := [];
    for k := 0 to |data|
      invariant rows == RowsOf(data[..k], labels, colspec)
    {
      assert data[..k + 1][..k] == data[..k];
      rows := rows + [Row(labels, Cells(data[k], colspec))];
    }
    assert data[..|data|] == data;
  }

  /**
   * There are no rows exactly when no line starts with `-`, or when the first
   * such line is the last line.
   */
  lemma TableEmptyIff(lines: seq<string>)
    ensures Table(lines) == [] <==>
      Separator(lines).None? || Separator(lines).value == |lines| - 1
  {
  }

  /**
   * One row per line after the separator, blank lines and later dash lines
   * included; each row is built from the cells of its line under the labels of
   * the header block above the separator.
   */
  lemma TableRows(lines: seq<string>, mark: nat)
    requires Separator(lines) == Some(mark)
    ensures var colspec := DashRuns(lines[mark]);
      var labels := Labels(lines[HeaderStart(lines, mark)..mark], colspec);
      |Table(lines)| == |lines| - mark - 1
      && forall t :: 0 <= t < |Table(lines)| ==>
           Table(lines)[t] == Row(labels, Cells(lines[mark + 1 + t], colspec))
  {
    var colspec := DashRuns(lines[mark]);
    var labels := Labels(lines[HeaderStart(lines, mark)..mark], colspec);
    var data := lines[mark + 1..];
    assert Table(lines) == RowsOf(data, labels, colspec);
    forall t | 0 <= t < |data| ensures data[t] == lines[mark + 1 + t] { }
  }

  /** A row has one key per distinct label, and no other key. */
  lemma {:induction false} RowKeys(labels: seq<string>, cells: seq<string>, key: string)
    requires |labels| == |cells|
    ensures key in Row(labels, cells) <==> key in labels
  {
    if labels != [] {
      RowKeys(labels[..|labels| - 1], cells[..|cells| - 1], key);
      if key in labels && key != labels[|labels| - 1] {
        var c :| 0 <= c < |labels| && labels[c] == key;
        assert labels[..|labels| - 1][c] == key;
      }
    }
  }

  /**
   * `zip` pairs labels with cells by position, and of equal labels the
   * rightmost column wins: a column whose label no later column repeats
   * gives its own cell.
   */
  lemma {:induction false} RowCell(labels: seq<string>, cells: seq<string>, c: nat)
    requires |labels| == |cells| && c < |labels|
    requires forall d :: c < d < |labels| ==> labels[d] != labels[c]
    ensures labels[c] in Row(labels, cells) && Row(labels, cells)[labels[c]] == cells[c]
  {
    var n := |labels| - 1;
    if c < n {
      RowCell(labels[..n], cells[..n], c);
    }
  }

  /** With distinct labels, the row maps each column's label to its cell. */
  lemma DistinctLabelsRow(labels: seq<string>, cells: seq<string>)
    requires |labels| == |cells|
    requires forall c, d :: 0 <= c < d < |labels| ==> labels[c] != labels[d]
    ensures forall c :: 0 <= c < |labels| ==>
      labels[c] in Row(labels, cells) && Row(labels, cells)[labels[c]] == cells[c]
    ensures forall key :: key in Row(labels, cells) ==> key in labels
  {
    forall c | 0 <= c < |labels|
      ensures labels[c] in Row(labels, cells) && Row(labels, cells)[labels[c]] == cells[c]
    {
      RowCell(labels, cells, c);
    }
    forall key | key in Row(labels, cells) ensures key in labels {
      RowKeys(labels, cells, key);
    }
  }

  /** Without header lines every label is `""`. */
  lemma NoHeaderLabels(colspec: seq<Span>)
    ensures forall c :: 0 <= c < |colspec| ==> Labels([], colspec)[c] == ""
  {
  }

  /** Under one repeated label a row keeps only the last column's cell. */
  lemma {:induction false} SameLabelRow(labels: seq<string>, cells: seq<string>, key: string)
    requires |labels| == |cells| && 0 < |labels|
    requires forall c :: 0 <= c < |labels| ==> labels[c] == key
    ensures Row(labels, cells) == map[key := cells[|cells| - 1]]
  {
    var n := |labels| - 1;
    if n > 0 {
      SameLabelRow(labels[..n], cells[..n], key);
    }
  }
}
