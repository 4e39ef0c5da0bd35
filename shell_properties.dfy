/** What the shell's update promises, one message at a time and over any
    sequence of messages delivered by the event loop. */
module ShellProperties {
  import opened Tea
  import opened Widgets
  import opened Shell

  // ---------------------------------------------------------------- one message

  /** Tab with the list focused moves focus to the table, hides the list's
      help and focuses the table; nothing else changes and neither panel is
      handed the key. */
  lemma TabFromList(m: Model, sel: Option<Item>)
    requires m.focus == ListFocus
    ensures Next(m, Key("tab"), sel) ==
      Transition(m.(focus := TableFocus,
                    list := m.list.(showHelp := false),
                    table := m.table.(focused := true)), NoCommand)
  {
  }

  /** Tab with the table focused moves focus to the list, shows the list's
      help and blurs the table; nothing else changes. */
  lemma TabFromTable(m: Model, sel: Option<Item>)
    requires m.focus == TableFocus
    ensures Next(m, Key("tab"), sel) ==
      Transition(m.(focus := ListFocus,
                    list := m.list.(showHelp := true),
                    table := m.table.(focused := false)), NoCommand)
  {
  }

  /** Two tabs restore the focus tag, leave both panels' flags in agreement
      with it, and change nothing else; from a state whose flags already
      agree they change nothing at all. */
  lemma TabTwice(m: Model, s1: Option<Item>, s2: Option<Item>)
    ensures var m2 := Next(Next(m, Key("tab"), s1).model, Key("tab"), s2).model;
      m2 == m.(list := m.list.(showHelp := m.focus == ListFocus),
               table := m.table.(focused := m.focus == TableFocus))
      && FlagsAgree(m2)
      && (FlagsAgree(m) ==> m2 == m)
  {
  }

  /** `q` and `ctrl+c` ask the loop to quit and leave the model as it was,
      whatever has focus. */
  lemma QuitKeepsModel(m: Model, name: string, sel: Option<Item>)
    requires name == "q" || name == "ctrl+c"
    ensures Next(m, Key(name), sel) == Transition(m, Quit)
  {
  }

  /** The shell's own switch returns the quit command exactly on `q` and
      `ctrl+c`; for a forwarded message it returns the panels' commands. */
  lemma QuitOnlyOnQuitKeys(m: Model, msg: Msg, sel: Option<Item>)
    ensures Next(m, msg, sel).cmd == Quit <==> IsQuitKey(msg)
    ensures Next(m, msg, sel).cmd == WidgetCommands <==> Forwarded(msg)
  {
  }

  /** A resize stores the viewport, gives the list half the width less 4 and
      the height less 2, gives the table the same width, and leaves focus,
      rows, flags and the panels' histories alone. */
  lemma ResizeSetsSizes(m: Model, w: int, h: int, sel: Option<Item>)
    ensures var t := Next(m, WindowSize(w, h), sel);
      t.cmd == NoCommand
      && t.model.width == w && t.model.height == h
      && t.model.list.width == PanelWidth(w) && t.model.list.height == h - 2
      && t.model.table.width == PanelWidth(w)
      && t.model.focus == m.focus && t.model.table.rows == m.table.rows
      && t.model.list.showHelp == m.list.showHelp && t.model.table.focused == m.table.focused
      && t.model.list.received == m.list.received && t.model.table.received == m.table.received
      && t.model.table.height == m.table.height
      && t.model.list.items == m.list.items && t.model.table.columns == m.table.columns
  {
  }

  /** The panel width is the truncated half less 4: a 100 by 40 viewport gives
      the list 46 by 38 and the table 46. */
  lemma ResizeExample(m: Model, sel: Option<Item>)
    ensures var t := Next(m, WindowSize(100, 40), sel).model;
      t.list.width == 46 && t.list.height == 38 && t.table.width == 46
  {
  }

  /** Nothing clamps the panel sizes: a small or negative viewport yields
      negative sizes, and a negative odd width is halved toward zero. */
  lemma ResizeGoesNegative(m: Model, sel: Option<Item>)
    ensures var t := Next(m, WindowSize(5, 1), sel).model;
      t.list.width == -2 && t.list.height == -1 && t.table.width == -2
    ensures Next(m, WindowSize(-3, 0), sel).model.list.width == -5
  {
  }

  /** While the list has focus, any forwarded message after which the list
      reports a selected item rebuilds the table from that item's title and
      moves focus to the table, hiding the help and focusing the table; both
      panels receive the message, the table only once it is refilled and
      focused. */
  lemma SelectionMovesToTable(m: Model, msg: Msg, it: Item)
    requires Forwarded(msg) && m.focus == ListFocus
    ensures Next(m, msg, Some(it)) ==
      Transition(m.(focus := TableFocus,
                    list := m.list.(showHelp := false, received := m.list.received + [msg]),
                    table := m.table.(rows := DetailRows(it.title), focused := true,
                                      received := m.table.received + [Delivery(msg, true)])),
                 WidgetCommands)
  {
  }

  /** While the table has focus, or when the list reports nothing selected, a
      forwarded message only reaches the two panels: focus, flags and rows
      stay as they were. */
  lemma NoSelectionOnlyForwards(m: Model, msg: Msg, sel: Option<Item>)
    requires Forwarded(msg) && (m.focus == TableFocus || sel.None?)
    ensures Next(m, msg, sel) ==
      Transition(m.(list := m.list.(received := m.list.received + [msg]),
                    table := m.table.(received := m.table.received + [Delivery(msg, m.table.focused)])),
                 WidgetCommands)
  {
  }

  /** A panel is handed a message exactly when the shell does not consume it
      as a resize, a quit key or tab; otherwise neither panel sees it. The
      table is handed it last, with the focus it has after the update. */
  lemma ForwardedExactly(m: Model, msg: Msg, sel: Option<Item>)
    ensures var t := Next(m, msg, sel).model;
      (Forwarded(msg) ==> t.list.received == m.list.received + [msg]
                          && t.table.received == m.table.received + [Delivery(msg, t.table.focused)])
      && (!Forwarded(msg) ==> t.list.received == m.list.received
                              && t.table.received == m.table.received)
  {
  }

  /** From coherent flags, the table handles a forwarded message while
      focused exactly when the focus ends on the table or the startup flags
      still hold (at startup the table is focused while the list has focus). */
  lemma TableHandlesWhileFocused(m: Model, msg: Msg, sel: Option<Item>)
    requires Coherent(m) && Forwarded(msg)
    ensures var t := Next(m, msg, sel).model;
      |t.table.received| > 0
      && t.table.received[|t.table.received| - 1].focused
         == (t.focus == TableFocus || StartupFlags(t))
  {
  }

  /** The rows change only when focus moves from the list to the table. */
  lemma RowsChangeOnlyOnSwitch(m: Model, msg: Msg, sel: Option<Item>)
    ensures var t := Next(m, msg, sel).model;
      t.table.rows != m.table.rows ==> m.focus == ListFocus && t.focus == TableFocus
  {
  }

  // ------------------------------------------------------------ flag coherence

  /** The flags either agree with the focus or are still those of startup. */
  predicate Coherent(m: Model) {
    FlagsAgree(m) || StartupFlags(m)
  }

  /** One update keeps the flags coherent; agreement, once reached, is kept;
      and any change of focus leaves the flags in agreement. */
  lemma StepKeepsCoherent(m: Model, msg: Msg, sel: Option<Item>)
    requires Coherent(m)
    ensures var t := Next(m, msg, sel).model;
      Coherent(t)
      && (FlagsAgree(m) ==> FlagsAgree(t))
      && (t.focus != m.focus ==> FlagsAgree(t))
      && (!FlagsAgree(t) ==> t.focus == m.focus && t.list.showHelp == m.list.showHelp
                             && t.table.focused == m.table.focused)
  {
  }

  /** Over any run the flags stay coherent, and agreement is kept. */
  lemma {:induction false} RunKeepsCoherent(m: Model, events: seq<Event>)
    requires Coherent(m)
    ensures Coherent(Run(m, events))
    ensures FlagsAgree(m) ==> FlagsAgree(Run(m, events))
    decreases |events|
  {
    if events != [] {
      var t := Next(m, events[0].msg, events[0].selection);
      StepKeepsCoherent(m, events[0].msg, events[0].selection);
      if !Stops(t.cmd, events[0]) {
        RunKeepsCoherent(t.model, events[1..]);
      }
    }
  }

  /** From startup, the flags disagree with the focus tag exactly until the
      focus first moves: a run ends with agreeing flags if and only if the
      focus moved during it, and keeps the startup flags if it never did. */
  lemma {:induction false} DisagreeUntilFocusMoves(m: Model, events: seq<Event>)
    requires StartupFlags(m)
    ensures FlagsAgree(Run(m, events)) <==> FocusMoved(m, events)
    ensures !FocusMoved(m, events) ==> StartupFlags(Run(m, events))
    decreases |events|
  {
    if events != [] {
      var e := events[0];
      var t := Next(m, e.msg, e.selection);
      StepKeepsCoherent(m, e.msg, e.selection);
      if t.model.focus != m.focus {
        if !Stops(t.cmd, e) {
          RunKeepsCoherent(t.model, events[1..]);
        }
      } else if !Stops(t.cmd, e) {
        DisagreeUntilFocusMoves(t.model, events[1..]);
      }
    }
  }

  /** Some update of the run, before any quit, changes the focus tag. */
  predicate FocusMoved(m: Model, events: seq<Event>)
    decreases |events|
  {
    if events == [] then false
    else
      var t := Next(m, events[0].msg, events[0].selection);
      t.model.focus != m.focus || (!Stops(t.cmd, events[0]) && FocusMoved(t.model, events[1..]))
  }

  /** From the initial state the flags are coherent after any run. */
  lemma InitialRunsCoherent(events: seq<Event>)
    ensures Coherent(Run(InitialModel(), events))
  {
    RunKeepsCoherent(InitialModel(), events);
  }

  // -------------------------------------------------------------- table rows

  /** The rows are the startup samples or the detail rows of one of `items`. */
  ghost predicate TemplatedRows(rs: seq<Row>, items: seq<Item>) {
    rs == SampleRows() || exists it :: it in items && rs == DetailRows(it.title)
  }

  /** Every selection the list reports during the run is one of `items`. */
  predicate SelectionsFrom(events: seq<Event>, items: seq<Item>) {
    forall i :: 0 <= i < |events| && events[i].selection.Some? ==> events[i].selection.value in items
  }

  /** Over any run in which the list reports only its own items, the table
      holds three rows: the samples or the detail rows of one of those items;
      the list's items never change. */
  lemma {:induction false} RunKeepsTemplatedRows(m: Model, events: seq<Event>)
    requires TemplatedRows(m.table.rows, m.list.items)
    requires SelectionsFrom(events, m.list.items)
    ensures Run(m, events).list.items == m.list.items
    ensures TemplatedRows(Run(m, events).table.rows, m.list.items)
    ensures |Run(m, events).table.rows| == 3
    decreases |events|
  {
    if m.table.rows != SampleRows() {
      var it :| it in m.list.items && m.table.rows == DetailRows(it.title);
    }
    if events != [] {
      var e := events[0];
      var t := Next(m, e.msg, e.selection);
      assert t.model.list.items == m.list.items;
      if t.model.table.rows != m.table.rows {
        assert e.selection.Some? && e.selection.value in m.list.items;
        assert t.model.table.rows == DetailRows(e.selection.value.title);
      }
      if !Stops(t.cmd, e) {
        assert forall i :: 0 <= i < |events[1..]| ==> events[1..][i] == events[i + 1];
        RunKeepsTemplatedRows(t.model, events[1..]);
      }
    }
  }

  /** The loop stops after a forwarded message whose panel commands quit, as
      it does after `q` or `ctrl+c`: later events are not delivered. */
  lemma RunStopsOnQuit(m: Model, e: Event, rest: seq<Event>)
    requires IsQuitKey(e.msg) || (Forwarded(e.msg) && e.panelsQuit)
    ensures Run(m, [e] + rest) == Next(m, e.msg, e.selection).model
  {
    assert ([e] + rest)[0] == e;
  }

  // --------------------------------------------------------------- scenarios

  /** A run of two events that does not stop after the first is the two
      updates in turn. */
  lemma RunTwo(m: Model, e1: Event, e2: Event)
    requires !Stops(Next(m, e1.msg, e1.selection).cmd, e1)
    ensures var t1 := Next(m, e1.msg, e1.selection);
      var t2 := Next(t1.model, e2.msg, e2.selection);
      Run(m, [e1, e2]) == t2.model
  {
    var t1 := Next(m, e1.msg, e1.selection);
    var es := [e1, e2];
    assert es[0] == e1 && es[1..] == [e2];
    assert Run(m, es) == Run(t1.model, [e2]);
    var t2 := Next(t1.model, e2.msg, e2.selection);
    assert [e2][0] == e2 && [e2][1..] == [];
    if !Stops(t2.cmd, e2) {
      assert Run(t1.model, [e2]) == Run(t2.model, []);
    }
  }

  /** From startup the first forwarded key already switches: the list has
      moved its cursor to the second item when it reports it, so the table is
      filled from "Item 2" and takes the focus; a second Down reaches both
      panels but no longer rebuilds the rows. */
  lemma DownDownFromStartup()
    ensures var item2 := Item("Item 2", "Description for Item 2");
      var item3 := Item("Item 3", "Description for Item 3");
      var m := Run(InitialModel(), [Event(Key("down"), Some(item2), false), Event(Key("down"), Some(item3), false)]);
      m.focus == TableFocus && m.table.rows == DetailRows("Item 2")
      && m.table.rows[0] == Row("1", "Item 2 - Detail 1", "100")
      && FlagsAgree(m)
      && m.list.received == [Key("down"), Key("down")]
      && m.table.received == [Delivery(Key("down"), true), Delivery(Key("down"), true)]
  {
    var item2 := Item("Item 2", "Description for Item 2");
    var item3 := Item("Item 3", "Description for Item 3");
    var down := Key("down");
    assert Forwarded(down);
    var m0 := InitialModel();
    SelectionMovesToTable(m0, down, item2);
    var m1 := Next(m0, down, Some(item2)).model;
    NoSelectionOnlyForwards(m1, down, Some(item3));
    RunTwo(m0, Event(down, Some(item2), false), Event(down, Some(item3), false));
  }
}
