/**
 * The container list of the Docker window: parsing the tab-separated output of `docker ps`,
 * replacing the list wholesale, the colour and context-menu eligibility derived from a row's
 * status column, and the exact docker commands the window issues.
 */
module Containers {
  import opened Wrappers
  import opened Text
  import opened Models

  /** One row of the list: the six columns `docker ps` is asked for. */
  datatype Row = Row(id: string, image: string, command: string, created: string, status: string, ports: string)

  /** The text colour of a row: green for a running container, red for an exited one. */
  datatype Colour = Green | Red | Default

  /** The lifecycle actions of the window. */
  datatype Lifecycle = Start | Stop | Restart

  /** How an action was triggered: a context-menu item or one of the buttons under the list. */
  datatype Trigger = ContextMenu | Button

  /** Which lifecycle items of the context menu are enabled. */
  datatype MenuEnabled = MenuEnabled(start: bool, stop: bool, restart: bool)

  /** The message box an executed docker command ends with. */
  datatype Report = Succeeded(message: string) | Failed(message: string)

  /** The listing command; `\t` stays a two-character escape for docker's template engine. */
  const ListCommand: string :=
    "docker ps -a --format \"{{.ID}}\\t{{.Image}}\\t{{.Command}}\\t{{.CreatedAt}}\\t{{.Status}}\\t{{.Ports}}\""

  // ---------------------------------------------------------------------------------------
  // Parsing

  /** The six columns of a row, in display order. */
  function Fields(r: Row): seq<string> {
    [r.id, r.image, r.command, r.created, r.status, r.ports]
  }

  /** The line `docker ps` prints for a row. */
  function FormatLine(r: Row): string {
    Join(Fields(r), '\t')
  }

  /** No column of the row holds a tab. */
  predicate TabFree(r: Row) {
    forall k | 0 <= k < 6 :: '\t' !in Fields(r)[k]
  }

  /** A row that docker could print and the parser reads back: no tab or newline inside a column, a non-blank id. */
  predicate WellFormed(r: Row) {
    && (forall k | 0 <= k < 6 :: '\t' !in Fields(r)[k] && '\n' !in Fields(r)[k])
    && !IsBlank(r.id)
  }

  /**
   * The row one output line describes: none for a blank line or a line with fewer than six
   * tab-separated fields; otherwise fields 0..5, whatever follows the sixth being ignored.
   */
  function ParseLine(line: string): (r: Option<Row>)
    ensures r.Some? <==> !IsBlank(line) && |Split(line, '\t')| >= 6
    ensures r.Some? ==> Fields(r.value) == Split(line, '\t')[..6]
    ensures r.Some? ==> TabFree(r.value)
    ensures r.Some? ==> line == FormatLine(r.value) || StartsWith(line, FormatLine(r.value) + "\t")
  {
    if IsBlank(line) then None
    else
      var parts := Split(line, '\t');
      if |parts| >= 6 then
        var row := Row(parts[0], parts[1], parts[2], parts[3], parts[4], parts[5]);
        SplitPiecesHaveNoSeparator(line, '\t');
        JoinSplit(line, '\t');
        JoinPrefix(parts, 6, '\t');
        assert parts[..6] == Fields(row);
        Some(row)
      else None
  }

  /** The rows of a sequence of lines, in line order: at most one per line, no tab inside a column. */
  function ParseLines(lines: seq<string>): (rows: seq<Row>)
    ensures |rows| <= |lines|
    ensures forall i | 0 <= i < |rows| :: TabFree(rows[i])
  {
    if |lines| == 0 then []
    else
      var last := ParseLine(lines[|lines| - 1]);
      ParseLines(lines[..|lines| - 1]) + (if last.Some? then [last.value] else [])
  }

  /** The rows of the whole output of the listing command: at most one per output line. */
  function ParseOutput(output: string): (rows: seq<Row>)
    ensures |rows| <= |Split(output, '\n')|
    ensures forall i | 0 <= i < |rows| :: TabFree(rows[i])
  {
    ParseLines(Split(output, '\n'))
  }

  /** The first k pieces joined, a separator, and the rest joined, are the whole join. */
  lemma {:induction false} JoinPrefix(parts: seq<string>, k: nat, sep: char)
    requires 0 < k <= |parts|
    ensures Join(parts, sep) == Join(parts[..k], sep)
      || (k < |parts| && Join(parts, sep) == Join(parts[..k], sep) + [sep] + Join(parts[k..], sep))
    ensures k < |parts| ==> Join(parts, sep) == Join(parts[..k], sep) + [sep] + Join(parts[k..], sep)
    ensures k == |parts| ==> Join(parts, sep) == Join(parts[..k], sep)
  {
    if k == |parts| {
      assert parts[..k] == parts;
    } else if k == 1 {
      assert parts[..1] == [parts[0]];
    } else {
      JoinPrefix(parts[1..], k - 1, sep);
      assert parts[1..][..k - 1] == parts[..k][1..];
      assert parts[1..][k - 1..] == parts[k..];
    }
  }

  /** Lines are parsed one at a time: parsing a concatenation concatenates the rows. */
  lemma {:induction false} ParseLinesConcat(a: seq<string>, b: seq<string>)
    ensures ParseLines(a + b) == ParseLines(a) + ParseLines(b)
    decreases |b|
  {
    if |b| == 0 {
      assert a + b == a;
    } else {
      ParseLinesConcat(a, b[..|b| - 1]);
      assert (a + b)[..|a + b| - 1] == a + b[..|b| - 1];
      assert (a + b)[|a + b| - 1] == b[|b| - 1];
    }
  }

  /** A single line contributes its row when it has one and nothing otherwise. */
  lemma ParseLinesSingle(line: string)
    ensures ParseLines([line]) == if ParseLine(line).Some? then [ParseLine(line).value] else []
  {
    assert [line][..0] == [];
  }

  /** A well-formed row survives printing and parsing, whatever columns docker adds after the sixth. */
  lemma ParseLineRoundTrip(r: Row, extra: Option<string>)
    requires WellFormed(r)
    ensures ParseLine(if extra.Some? then FormatLine(r) + "\t" + extra.value else FormatLine(r)) == Some(r)
  {
    var fields := Fields(r);
    var line := if extra.Some? then FormatLine(r) + "\t" + extra.value else FormatLine(r);
    assert !IsBlank(line) by {
      var k :| 0 <= k < |r.id| && r.id[k] !in WhiteSpace;
      JoinPrefix(fields, 1, '\t');
      assert fields[..1] == [r.id];
      assert line[k] == r.id[k];
    }
    if extra.Some? {
      SplitJoinPrefix(fields, '\t', extra.value);
    } else {
      SplitJoin(fields, '\t');
    }
  }

  /** Splitting separator-free pieces followed by a separator and a tail gives the pieces and the tail's pieces. */
  lemma {:induction false} SplitJoinPrefix(parts: seq<string>, sep: char, t: string)
    requires |parts| >= 1
    requires forall k | 0 <= k < |parts| :: sep !in parts[k]
    ensures Split(Join(parts, sep) + [sep] + t, sep) == parts + Split(t, sep)
  {
    if |parts| == 1 {
      assert Join(parts, sep) == parts[0];
      SplitPiece(parts[0], sep, t);
      assert parts + Split(t, sep) == [parts[0]] + Split(t, sep);
    } else {
      var rest := Join(parts[1..], sep);
      var tail := rest + [sep] + t;
      assert Join(parts, sep) == parts[0] + [sep] + rest;
      assert Join(parts, sep) + [sep] + t == parts[0] + [sep] + tail;
      SplitPiece(parts[0], sep, tail);
      SplitJoinPrefix(parts[1..], sep, t);
      assert Split(tail, sep) == parts[1..] + Split(t, sep);
      HeadThenRest(parts, Split(t, sep));
    }
  }

  /** A non-empty sequence is its head followed by its rest, also in front of a suffix. */
  lemma HeadThenRest<T>(xs: seq<T>, suffix: seq<T>)
    requires |xs| >= 1
    ensures [xs[0]] + (xs[1..] + suffix) == xs + suffix
  {
    assert [xs[0]] + xs[1..] == xs;
  }

  /** The lines `docker ps` prints for a list of rows. */
  function FormatLines(rows: seq<Row>): seq<string> {
    if |rows| == 0 then [] else FormatLines(rows[..|rows| - 1]) + [FormatLine(rows[|rows| - 1])]
  }

  /** The listing output for a list of rows: their lines separated by newlines. */
  function Render(rows: seq<Row>): string {
    Join(FormatLines(rows), '\n')
  }

  /** Every row of a list of well-formed rows is read back from the rendered listing, in order. */
  lemma {:induction false} ParseLinesFormatLines(rows: seq<Row>)
    requires forall k | 0 <= k < |rows| :: WellFormed(rows[k])
    ensures ParseLines(FormatLines(rows)) == rows
  {
    if |rows| > 0 {
      var init, last := rows[..|rows| - 1], rows[|rows| - 1];
      var lines := FormatLines(rows);
      assert lines == FormatLines(init) + [FormatLine(last)];
      assert lines[..|lines| - 1] == FormatLines(init);
      assert lines[|lines| - 1] == FormatLine(last);
      ParseLinesFormatLines(init);
      ParseLineRoundTrip(last, None);
      assert rows == init + [last];
    }
  }

  lemma {:induction false} FormatLinesLength(rows: seq<Row>)
    ensures |FormatLines(rows)| == |rows|
    ensures forall k | 0 <= k < |rows| :: FormatLines(rows)[k] == FormatLine(rows[k])
  {
    if |rows| > 0 {
      FormatLinesLength(rows[..|rows| - 1]);
    }
  }

  /** Refreshing from the listing of well-formed rows yields exactly those rows, in order. */
  lemma RenderRoundTrip(rows: seq<Row>)
    requires forall k | 0 <= k < |rows| :: WellFormed(rows[k])
    ensures ParseOutput(Render(rows)) == rows
  {
    FormatLinesLength(rows);
    if |rows| == 0 {
      assert ParseLine("") == None;
    } else {
      forall k | 0 <= k < |rows| ensures '\n' !in FormatLines(rows)[k] {
        JoinAvoids(Fields(rows[k]), '\t', '\n');
      }
      SplitJoin(FormatLines(rows), '\n');
      ParseLinesFormatLines(rows);
    }
  }

  /** The listing as docker prints it, each line ending in a newline, refreshes to the same rows. */
  lemma RenderRoundTripNewline(rows: seq<Row>)
    requires forall k | 0 <= k < |rows| :: WellFormed(rows[k])
    ensures ParseOutput(Render(rows) + "\n") == rows
  {
    assert ParseLine("") == None;
    ParseLinesSingle("");
    SplitWhole("", '\n');
    if |rows| == 0 {
      assert Render(rows) + "\n" == "" + ['\n'] + "";
      SplitPiece("", '\n', "");
      assert Split(Render(rows) + "\n", '\n') == [] + [""] + [""];
      ParseLinesConcat([""], [""]);
    } else {
      var lines := FormatLines(rows);
      FormatLinesLength(rows);
      forall k | 0 <= k < |lines| ensures '\n' !in lines[k] {
        JoinAvoids(Fields(rows[k]), '\t', '\n');
      }
      assert Render(rows) + "\n" == Join(lines, '\n') + ['\n'] + "";
      SplitJoinPrefix(lines, '\n', "");
      ParseLinesConcat(lines, [""]);
      ParseLinesFormatLines(rows);
    }
  }

  // ---------------------------------------------------------------------------------------
  // Status-derived colour and eligibility

  /** The colour of a row: "Up" wins over "Exited" when a status mentions both. */
  function RowColour(status: string): (c: Colour)
    ensures c == Green <==> Contains(status, "Up")
    ensures c == Red <==> !Contains(status, "Up") && Contains(status, "Exited")
  {
    if Contains(status, "Up") then Green
    else if Contains(status, "Exited") then Red
    else Default
  }

  /**
   * The lifecycle items enabled when the context menu opens, given the selected row's status
   * (None without a selection): start for an exited container, stop and restart for a running one.
   */
  function Eligibility(status: Option<string>): (m: MenuEnabled)
    ensures status.None? ==> !m.start && !m.stop && !m.restart
    ensures status.Some? ==> m.start == Contains(status.value, "Exited")
    ensures status.Some? ==> m.stop == m.restart == Contains(status.value, "Up")
  {
    match status
    case None => MenuEnabled(false, false, false)
    case Some(s) => MenuEnabled(Contains(s, "Exited"), Contains(s, "Up"), Contains(s, "Up"))
  }

  /** Whether the enabled items allow an action. */
  predicate Allows(enabled: MenuEnabled, kind: Lifecycle) {
    match kind
    case Start => enabled.start
    case Stop => enabled.stop
    case Restart => enabled.restart
  }

  /** The menu agrees with the colour: a green row can be stopped, a red row can only be started. */
  lemma EligibilityMatchesColour(status: string)
    ensures RowColour(status) == Green ==> Eligibility(Some(status)).stop && Eligibility(Some(status)).restart
    ensures RowColour(status) == Red ==>
      Eligibility(Some(status)) == MenuEnabled(true, false, false)
    ensures RowColour(status) == Default ==> Eligibility(Some(status)) == MenuEnabled(false, false, false)
  {
  }

  // ---------------------------------------------------------------------------------------
  // Commands

  function Verb(kind: Lifecycle): string {
    match kind
    case Start => "start"
    case Stop => "stop"
    case Restart => "restart"
  }

  /** The caption of the message box that reports a lifecycle action. */
  function OperationName(kind: Lifecycle): string {
    match kind
    case Start => "启动容器"
    case Stop => "停止容器"
    case Restart => "重启容器"
  }

  /** `docker start|stop|restart <id>`. */
  function LifecycleCommand(kind: Lifecycle, id: string): string {
    "docker " + Verb(kind) + " " + id
  }

  /** Different actions or different containers never share a command. */
  lemma LifecycleCommandInjective(k1: Lifecycle, id1: string, k2: Lifecycle, id2: string)
    requires LifecycleCommand(k1, id1) == LifecycleCommand(k2, id2)
    ensures k1 == k2 && id1 == id2
  {
    var c := LifecycleCommand(k1, id1);
    assert c[7] == Verb(k1)[0] && c[7] == Verb(k2)[0];
    assert c[9] == Verb(k1)[2] && c[9] == Verb(k2)[2];
    assert id1 == c[|"docker " + Verb(k1) + " "|..];
  }

  /** A context-menu item issues its command only for a selected row with a non-empty id. */
  function MenuCommand(kind: Lifecycle, selectedId: Option<string>): (cmd: Option<string>)
    ensures cmd.Some? <==> selectedId.Some? && selectedId.value != ""
    ensures cmd.Some? ==> cmd.value == LifecycleCommand(kind, selectedId.value)
  {
    if selectedId.Some? && selectedId.value != "" then Some(LifecycleCommand(kind, selectedId.value)) else None
  }

  /**
   * A click on a lifecycle item of the context menu: a disabled item cannot be clicked, and an
   * enabled one issues its command under the menu's condition on the selected id.
   */
  function ContextMenuCommand(enabled: MenuEnabled, kind: Lifecycle, selectedId: Option<string>): (cmd: Option<string>)
    ensures cmd.Some? <==> Allows(enabled, kind) && selectedId.Some? && selectedId.value != ""
    ensures cmd.Some? ==> cmd.value == LifecycleCommand(kind, selectedId.value)
  {
    if Allows(enabled, kind) then MenuCommand(kind, selectedId) else None
  }

  /**
   * With the items set as the menu opens, the context menu starts only an exited container and
   * stops or restarts only a running one.
   */
  lemma ContextMenuFollowsStatus(kind: Lifecycle, status: Option<string>, selectedId: Option<string>)
    requires ContextMenuCommand(Eligibility(status), kind, selectedId).Some?
    ensures status.Some?
    ensures kind == Start ==> Contains(status.value, "Exited")
    ensures kind != Start ==> Contains(status.value, "Up")
  {
  }

  /** A button issues its command for any selected row, even one whose id column is empty. */
  function ButtonCommand(kind: Lifecycle, selectedId: Option<string>): (cmd: Option<string>)
    ensures cmd.Some? <==> selectedId.Some?
    ensures cmd.Some? ==> cmd.value == LifecycleCommand(kind, selectedId.value)
  {
    if selectedId.Some? then Some(LifecycleCommand(kind, selectedId.value)) else None
  }

  /** The two triggers disagree only on a selected row whose id is empty. */
  lemma MenuAndButtonAgree(kind: Lifecycle, selectedId: Option<string>)
    ensures MenuCommand(kind, selectedId) == ButtonCommand(kind, selectedId) <==> selectedId != Some("")
  {
  }

  /** How a log window is asked for: the context-menu item, the logs button, or a double click on the list. */
  datatype LogsTrigger = LogsMenuItem | LogsButton | DoubleClick

  /**
   * The container whose log window opens: the menu item needs a non-empty id, the button any
   * selection, and a double click opens a window even without a selection, for the empty id.
   */
  function LogsTarget(trigger: LogsTrigger, selectedId: Option<string>): (target: Option<string>)
    ensures trigger == LogsMenuItem ==> target == MenuCommandTarget(selectedId)
    ensures trigger == LogsButton ==> target == selectedId
    ensures trigger == DoubleClick ==> target == Some(if selectedId.Some? then selectedId.value else "")
  {
    match trigger
    case LogsMenuItem => if selectedId.Some? && selectedId.value != "" then selectedId else None
    case LogsButton => selectedId
    case DoubleClick => Some(if selectedId.Some? then selectedId.value else "")
  }

  /** The container a context-menu item acts on: the selected one, when its id is non-empty. */
  function MenuCommandTarget(selectedId: Option<string>): (target: Option<string>)
    ensures target.Some? <==> selectedId.Some? && selectedId.value != ""
    ensures target.Some? ==> target == selectedId
  {
    if selectedId.Some? && selectedId.value != "" then selectedId else None
  }

  /** The inspect window is reachable from the context menu only, under the menu's condition. */
  function InspectTarget(selectedId: Option<string>): (target: Option<string>)
    ensures target == MenuCommandTarget(selectedId)
  {
    if selectedId.Some? && selectedId.value != "" then selectedId else None
  }

  /** The command that fetches the last 1000 log lines of a container. */
  function LogsCommand(id: string): (cmd: string)
    ensures StartsWith(cmd, "docker logs --tail 1000 ") && cmd[|"docker logs --tail 1000 "|..] == id
  {
    "docker logs --tail 1000 " + id
  }

  /** The command that shows a container's full description. */
  function InspectCommand(id: string): (cmd: string)
    ensures StartsWith(cmd, "docker inspect ") && cmd[|"docker inspect "|..] == id
  {
    "docker inspect " + id
  }

  /** The message box after a docker command: success exactly when the command ran with an empty error stream. */
  function ReportOf(operation: string, result: ExecResult): (r: Report)
    ensures r.Succeeded? <==> result.Ran? && result.stderr == ""
    ensures r.Succeeded? ==> r.message == operation + "成功！"
    ensures r.Failed? ==> r.message == operation + "失败: " + (if result.Ran? then result.stderr else result.message)
  {
    match result
    case Threw(m) => Failed(operation + "失败: " + m)
    case Ran(_, err) => if err == "" then Succeeded(operation + "成功！") else Failed(operation + "失败: " + err)
  }

  /** What the inspect action shows: the command's output in a window, or an error message. */
  function InspectView(result: ExecResult): (r: Result<string, string>)
    ensures r.Success? <==> result.Ran?
    ensures r.Success? ==> r.value == result.stdout
    ensures r.Failure? ==> r.error == "获取容器信息失败: " + result.message
  {
    match result
    case Threw(m) => Failure("获取容器信息失败: " + m)
    case Ran(out, _) => Success(out)
  }

  // ---------------------------------------------------------------------------------------
  // The window's state

  /** The container list, its selection and the enabled state of the context menu's lifecycle items. */
  class ContainerList {
    var rows: seq<Row>
    var selected: Option<nat>
    var startEnabled: bool
    var stopEnabled: bool
    var restartEnabled: bool

    ghost predicate Valid()
      reads this
    {
      selected.Some? ==> selected.value < |rows|
    }

    /** An empty list with nothing selected; menu items start out enabled. */
    constructor ()
      ensures Valid() && rows == [] && selected == None
      ensures startEnabled && stopEnabled && restartEnabled
    {
      rows, selected := [], None;
      startEnabled, stopEnabled, restartEnabled := true, true, true;
    }

    /** The id column of the selected row. */
    function SelectedId(): Option<string>
      reads this
      requires Valid()
    {
      if selected.Some? then Some(rows[selected.value].id) else None
    }

    /** The status column of the selected row. */
    function SelectedStatus(): Option<string>
      reads this
      requires Valid()
    {
      if selected.Some? then Some(rows[selected.value].status) else None
    }

    /** The user selects a row, or clears the selection. */
    method Select(index: Option<nat>)
      requires Valid()
      requires index.Some? ==> index.value < |rows|
      modifies this`selected
      ensures Valid() && selected == index
    {
      selected := index;
    }

    /**
     * Refresh: when the listing command throws, the list and selection stay as they were and
     * the error is reported; otherwise the list is cleared (dropping the selection) and refilled
     * with the rows of the output, in order.
     */
    method Refresh(listing: ExecResult) returns (error: Option<string>)
      requires Valid()
      modifies this`rows, this`selected
      ensures Valid()
      ensures listing.Threw? ==> rows == old(rows) && selected == old(selected)
      ensures listing.Threw? ==> error == Some("获取容器列表失败: " + listing.message)
      ensures listing.Ran? ==> rows == ParseOutput(listing.stdout) && selected == None && error == None
    {
      if listing.Threw? {
        return Some("获取容器列表失败: " + listing.message);
      }
      rows, selected := [], None;
      var lines := Split(listing.stdout, '\n');
      var i := 0;
      while i < |lines|
        invariant 0 <= i <= |lines|
        invariant rows == ParseLines(lines[..i]) && selected == None
      {
        var line := lines[i];
        assert lines[..i + 1][..i] == lines[..i];
        i := i + 1;
        if IsBlank(line) {
          continue;
        }
        var parts := Split(line, '\t');
        if |parts| >= 6 {
          rows := rows + [Row(parts[0], parts[1], parts[2], parts[3], parts[4], parts[5])];
        }
      }
      assert lines[..i] == lines;
      error := None;
    }

    /** The context menu opens: the lifecycle items are re-derived from the selected row's status. */
    method OnMenuOpening()
      requires Valid()
      modifies this`startEnabled, this`stopEnabled, this`restartEnabled
      ensures MenuEnabled(startEnabled, stopEnabled, restartEnabled) == Eligibility(SelectedStatus())
    {
      var status := if selected.Some? then Some(rows[selected.value].status) else None;
      startEnabled := status.Some? && Contains(status.value, "Exited");
      stopEnabled := status.Some? && Contains(status.value, "Up");
      restartEnabled := status.Some? && Contains(status.value, "Up");
    }

    /**
     * A lifecycle action: when the trigger issues a command for the selection, the command is
     * run, its result reported and the list refreshed; otherwise nothing happens. A context-menu
     * item acts only while enabled.
     */
    method RunLifecycle(kind: Lifecycle, trigger: Trigger, result: ExecResult, listing: ExecResult)
      returns (issued: Option<string>, report: Option<Report>, refreshError: Option<string>)
      requires Valid()
      modifies this`rows, this`selected
      ensures Valid()
      ensures issued == (if trigger == ContextMenu
                         then ContextMenuCommand(old(MenuEnabled(startEnabled, stopEnabled, restartEnabled)), kind, old(SelectedId()))
                         else ButtonCommand(kind, old(SelectedId())))
      ensures issued.None? ==> report.None? && refreshError.None? && rows == old(rows) && selected == old(selected)
      ensures issued.Some? ==> report == Some(ReportOf(OperationName(kind), result))
      ensures issued.Some? && listing.Ran? ==> rows == ParseOutput(listing.stdout) && selected == None
      ensures issued.Some? && listing.Ran? ==> refreshError.None?
      ensures issued.Some? && listing.Threw? ==> rows == old(rows) && selected == old(selected)
      ensures issued.Some? && listing.Threw? ==> refreshError == Some("获取容器列表失败: " + listing.message)
    {
      var id := SelectedId();
      var enabled := MenuEnabled(startEnabled, stopEnabled, restartEnabled);
      issued := if trigger == ContextMenu then ContextMenuCommand(enabled, kind, id) else ButtonCommand(kind, id);
      report, refreshError := None, None;
      if issued.Some? {
        report := Some(ReportOf(OperationName(kind), result));
        refreshError := Refresh(listing);
      }
    }
  }

  /**
   * Opening a log window: the window is created empty and loads the logs once; a fetch that
   * throws leaves it empty and reports the error.
   */
  method OpenLogWindow(id: string, initial: ExecResult) returns (w: LogWindow, error: Option<string>)
    ensures fresh(w) && w.containerId == id
    ensures initial.Ran? ==> w.text == initial.stdout && error.None?
    ensures initial.Threw? ==> w.text == "" && error == Some("获取日志失败: " + initial.message)
  {
    w := new LogWindow(id);
    error := w.Load(false, initial);
  }

  /** The text of a container's log window. */
  class LogWindow {
    const containerId: string
    var text: string

    /** A new window for a container, its text still empty. */
    constructor (id: string)
      ensures containerId == id && text == ""
    {
      containerId := id;
      text := "";
    }

    /** The command that fetches this container's logs. */
    function Command(): string
      reads this
    {
      LogsCommand(containerId)
    }

    /**
     * Loading logs: the fetched text replaces the window's text, or is appended to it while
     * following; when the command throws the text is kept and an error is reported.
     */
    method Load(append: bool, result: ExecResult) returns (error: Option<string>)
      modifies this`text
      ensures result.Ran? ==> error.None? && text == if append then old(text) + result.stdout else result.stdout
      ensures result.Threw? ==> text == old(text) && error == Some("获取日志失败: " + result.message)
    {
      if result.Threw? {
        return Some("获取日志失败: " + result.message);
      }
      if !append {
        text := result.stdout;
      } else {
        text := text + result.stdout;
      }
      error := None;
    }

    /** The clear button empties the text. */
    method Clear()
      modifies this`text
      ensures text == ""
    {
      text := "";
    }
  }
}
