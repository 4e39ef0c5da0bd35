/** The two panels as the shell sees them. Their internals (cursor, paging,
    filtering, rendering) belong to the widget library and are opaque here:
    each panel keeps the settings the shell gives it, and `received`, the
    messages handed to its own update (for the table, with whether it was
    focused then), stands for its internal state. */
module Widgets {
  import opened Tea

  datatype Option<+T> = None | Some(value: T)

  /** An entry of the list panel. */
  datatype Item = Item(title: string, description: string)

  /** A table row: the ID, Name and Value cells. */
  datatype Row = Row(id: string, name: string, value: string)

  /** A message as the table was handed it, with whether the table was
      focused at that moment (a focused table acts on navigation keys). */
  datatype Delivery = Delivery(msg: Msg, focused: bool)

  /** A table column: header and fixed display width. */
  datatype Column = Column(title: string, width: int)

  /** The list panel. */
  datatype ListModel = ListModel(
    title: string,
    items: seq<Item>,
    width: int,
    height: int,
    showHelp: bool,
    received: seq<Msg>)
  {
    function SetSize(w: int, h: int): ListModel {
      this.(width := w, height := h)
    }

    function SetShowHelp(show: bool): ListModel {
      this.(showHelp := show)
    }

    /** The panel's own handling of `msg`; only the fact that it saw `msg` is kept. */
    function Update(msg: Msg): ListModel {
      this.(received := received + [msg])
    }
  }

  /** The table panel. */
  datatype TableModel = TableModel(
    columns: seq<Column>,
    rows: seq<Row>,
    focused: bool,
    width: int,
    height: int,
    received: seq<Delivery>)
  {
    function SetRows(rs: seq<Row>): TableModel {
      this.(rows := rs)
    }

    function SetWidth(w: int): TableModel {
      this.(width := w)
    }

    function Focus(): TableModel {
      this.(focused := true)
    }

    function Blur(): TableModel {
      this.(focused := false)
    }

    /** The panel's own handling of `msg`; only the fact that it saw `msg`,
        and whether it was focused then, is kept. */
    function Update(msg: Msg): TableModel {
      this.(received := received + [Delivery(msg, focused)])
    }
  }
}
