/** The application shell: the two panels, the viewport and the focus tag,
    the state it starts in, and how one incoming message changes it. */
module Shell {
  import opened Tea
  import opened Widgets

  /** Horizontal and vertical frame of the outer document style, whose margin
      is one line above and below and two columns left and right. */
  const FrameH: int := 4
  const FrameV: int := 2

  /** The focus tag; the shell only ever assigns "list" or "table". */
  datatype Focus = ListFocus | TableFocus

  datatype Model = Model(
    list: ListModel,
    table: TableModel,
    width: int,
    height: int,
    focus: Focus)

  /** The result of one update: the new model and the command for the loop. */
  datatype Transition = Transition(model: Model, cmd: Command)

  /** Integer halving with truncation toward zero, as the source language's
      `/` does it (Dafny's own `/` rounds negative operands down). */
  function GoHalf(n: int): (r: int)
    ensures n >= 0 ==> 0 <= n - 2 * r <= 1
    ensures n < 0 ==> -1 <= n - 2 * r <= 0
  {
    if n >= 0 then n / 2 else -((-n) / 2)
  }

  /** The width each panel gets for a viewport `w` wide; never clamped. */
  function PanelWidth(w: int): (r: int) {
    GoHalf(w) - FrameH
  }

  /** "1", "2" or "3": the row number of the k-th template row. */
  function RowNumber(k: int): (r: string)
    requires 0 <= k < 3
  {
    ["123"[k]]
  }

  /** The rows the table starts with. */
  function SampleRows(): (rs: seq<Row>)
    ensures |rs| == 3
    ensures forall k :: 0 <= k < 3 ==>
      rs[k] == Row(RowNumber(k), "Sample " + RowNumber(k), RowNumber(k) + "00")
  {
    [Row("1", "Sample 1", "100"), Row("2", "Sample 2", "200"), Row("3", "Sample 3", "300")]
  }

  /** The rows built for a selected item titled `title`. */
  function DetailRows(title: string): (rs: seq<Row>)
    ensures |rs| == 3
    ensures forall k :: 0 <= k < 3 ==>
      rs[k] == Row(RowNumber(k), title + " - Detail " + RowNumber(k), RowNumber(k) + "00")
  {
    [Row("1", title + " - Detail 1", "100"),
     Row("2", title + " - Detail 2", "200"),
     Row("3", title + " - Detail 3", "300")]
  }

  /** The focus flags of both panels agree with the focus tag: the list shows
      its help exactly when it has focus, the table is focused exactly when it has. */
  predicate FlagsAgree(m: Model) {
    m.list.showHelp == (m.focus == ListFocus) && m.table.focused == (m.focus == TableFocus)
  }

  /** The flags of the initial state: focus on the list, yet the table focused too. */
  predicate StartupFlags(m: Model) {
    m.focus == ListFocus && m.list.showHelp && m.table.focused
  }

  /** The state the program starts in. The list title, the demo items, the
      list's zero size and the table columns, rows and height are the source's
      literals; the list showing its help and the table's zero width are the
      widget library's defaults. */
  function InitialModel(): (m: Model)
    ensures m.focus == ListFocus
    ensures m.table.rows == SampleRows() && m.table.focused
    ensures StartupFlags(m) && !FlagsAgree(m)
    ensures |m.list.items| == 3 && m.list.received == [] && m.table.received == []
    ensures forall k :: 0 <= k < 3 ==> m.list.items[k].title == "Item " + RowNumber(k)
  {
    var items := [
      Item("Item 1", "Description for Item 1"),
      Item("Item 2", "Description for Item 2"),
      Item("Item 3", "Description for Item 3")];
    var l := ListModel("Select an Item", items, 0, 0, true, []);
    var columns := [Column("ID", 4), Column("Name", 20), Column("Value", 10)];
    var t := TableModel(columns, SampleRows(), true, 0, 7, []);
    Model(l, t, 0, 0, ListFocus)
  }

  predicate IsQuitKey(msg: Msg) {
    msg.Key? && (msg.name == "ctrl+c" || msg.name == "q")
  }

  predicate IsTab(msg: Msg) {
    msg == Key("tab")
  }

  /** The messages the shell hands on to the panels: all but a resize, a quit
      key and tab. */
  predicate Forwarded(msg: Msg) {
    !msg.WindowSize? && !IsQuitKey(msg) && !IsTab(msg)
  }

  function Flip(f: Focus): (r: Focus) {
    if f == ListFocus then TableFocus else ListFocus
  }

  /** `m` with focus on `f` and both panels' flags set to match it. */
  function WithFocus(m: Model, f: Focus): (r: Model) {
    m.(focus := f,
       list := m.list.SetShowHelp(f == ListFocus),
       table := if f == TableFocus then m.table.Focus() else m.table.Blur())
  }

  /** The viewport after a resize to `w` by `h`; the panels get half the width
      less the frame, the list the full height less the frame. */
  function Resized(m: Model, w: int, h: int): (r: Model) {
    m.(width := w, height := h,
       list := m.list.SetSize(PanelWidth(w), h - FrameV),
       table := m.table.SetWidth(PanelWidth(w)))
  }

  /** After the list has handled a forwarded message: if the list has focus and
      reports `sel` selected, the table is refilled from the selected item and
      takes the focus. */
  function AfterSelection(m: Model, sel: Option<Item>): (r: Model) {
    if m.focus == ListFocus && sel.Some? then
      WithFocus(m.(table := m.table.SetRows(DetailRows(sel.value.title))), TableFocus)
    else
      m
  }

  /** The specification of one update: `sel` is what the list reports as
      selected once it has handled `msg` (the list's own update is opaque). */
  function Next(m: Model, msg: Msg, sel: Option<Item>): (t: Transition) {
    if msg.WindowSize? then
      Transition(Resized(m, msg.width, msg.height), NoCommand)
    else if IsQuitKey(msg) then
      Transition(m, Quit)
    else if IsTab(msg) then
      Transition(WithFocus(m, Flip(m.focus)), NoCommand)
    else
      var m' := AfterSelection(m.(list := m.list.Update(msg)), sel);
      Transition(m'.(table := m'.table.Update(msg)), WidgetCommands)
  }

  /** One update as the shell performs it, assigning its copy of the model
      step by step. */
  method Update(m0: Model, msg: Msg, sel: Option<Item>) returns (m: Model, cmd: Command)
    ensures Transition(m, cmd) == Next(m0, msg, sel)
  {
    m := m0;
    match msg {
      case WindowSize(w, h) =>
        m := m.(width := w);
        m := m.(height := h);
        m := m.(list := m.list.SetSize(GoHalf(w) - FrameH, h - FrameV));
        m := m.(table := m.table.SetWidth(GoHalf(w) - FrameH));
        return m, NoCommand;
      case Key(name) =>
        if name == "ctrl+c" || name == "q" {
          return m, Quit;
        } else if name == "tab" {
          if m.focus == ListFocus {
            m := m.(focus := TableFocus);
            m := m.(list := m.list.SetShowHelp(false));
            m := m.(table := m.table.Focus());
          } else {
            m := m.(focus := ListFocus);
            m := m.(list := m.list.SetShowHelp(true));
            m := m.(table := m.table.Blur());
          }
          return m, NoCommand;
        }
      case Other(_) =>
    }
    m := m.(list := m.list.Update(msg));
    if m.focus == ListFocus {
      if sel.Some? {
        m := m.(table := m.table.SetRows(DetailRows(sel.value.title)));
        m := m.(focus := TableFocus);
        m := m.(list := m.list.SetShowHelp(false));
        m := m.(table := m.table.Focus());
      }
    }
    m := m.(table := m.table.Update(msg));
    cmd := WidgetCommands;
  }

  /** One message delivered by the event loop, with what the list reports as
      selected after handling it and whether the commands the panels return
      for it include a quit (the list's own key map quits on some keys). */
  datatype Event = Event(msg: Msg, selection: Option<Item>, panelsQuit: bool)

  /** The loop stops after an update that returns the shell's own quit, or
      that returns the panels' commands when one of them quits. */
  predicate Stops(cmd: Command, e: Event) {
    cmd == Quit || (cmd == WidgetCommands && e.panelsQuit)
  }

  /** The event loop: the model after delivering `events` in order. A quit
      is taken to stop the loop at once, after the update that returns it. */
  function Run(m: Model, events: seq<Event>): (r: Model)
    decreases |events|
  {
    if events == [] then m
    else
      var t := Next(m, events[0].msg, events[0].selection);
      if Stops(t.cmd, events[0]) then t.model else Run(t.model, events[1..])
  }
}
