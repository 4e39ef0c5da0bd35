# Focus and event routing of a two-panel terminal demo

The program shows a selectable list panel beside a table panel. An
application shell owns both panels, the terminal viewport size and a focus
tag that says which panel has focus. On every incoming message it:

1. on a resize, stores the viewport and gives each panel half the width less
   the outer frame (and the list the full height less the frame);
2. on `q` or `ctrl+c`, asks the event loop to quit;
3. on `tab`, flips the focus, showing or hiding the list's help and
   focusing or blurring the table to match;
4. otherwise hands the message to the list, and then, if the list has focus
   and reports a selected item, refills the table with three detail rows
   built from that item's title and moves focus to the table; finally hands
   the message to the table.

The model is in four modules:

- `Tea` (tea.dfy): the incoming messages (resize, key press by name, any
  other message) and the command an update returns (none, quit, or the
  panels' own commands).
- `Widgets` (widgets.dfy): the list and table panels as opaque records. They
  keep what the shell sets (sizes, the help flag, the focused flag, the rows).
  The field `received` holds the messages handed to a panel's own update and
  stands for its internal state. For the table it also records whether the
  table was focused when it was handed each message.
- `Shell` (shell.dfy): the shell's state, its initial value `InitialModel`,
  the specification of one update `Next`, and the method `Update`, which
  changes its copy of the state step by step in the source's order. `Update`
  is proved equal to `Next`. `Run` delivers a sequence of messages as the
  event loop does. It treats a quit as stopping the loop at once, right after
  the update that returns it. The quit is either the shell's own, on `q` or
  `ctrl+c`, or one among the panels' commands.
- `ShellProperties` (shell_properties.dfy): what one update promises for
  each kind of message, and invariants over every run.

The list's own update is opaque. What it reports as selected after handling
a message is an input of `Next` and `Update` (the `sel` parameter). In a
run, each event carries it beside the message, together with whether the
panels' commands for that message include a quit.

Two quirks of the source are kept:

- At startup the focus is on the list, but the table was also created
  focused. The panels' flags agree with the focus tag only once the focus
  has moved for the first time (`DisagreeUntilFocusMoves`).
- Panel sizes use truncating integer halving and are never clamped, so a
  narrow viewport gives negative sizes (`ResizeGoesNegative`).

Two consequences of the code, each proved:

- The frame is 4 columns wide (a margin of 2 on each side), so a 100 by 40
  viewport gives the list 46 by 38 and the table 46 (`ResizeExample`).
- The list reports a selection after every key, so from startup the first
  forwarded key already fills the table from the item under the cursor and
  moves the focus (`DownDownFromStartup`).

## Model

| member | source | states |
|---|---|---|
| `Shell.GoHalf` | main.go:98-99 | halving truncates toward zero: the remainder is 0 or 1 for a non-negative width, 0 or -1 for a negative one |
| `Shell.SampleRows` | main.go:52-56 | the initial rows are three rows; row k has id k, name "Sample k" and value k00 |
| `Shell.DetailRows` | main.go:130-134 | the rows for a selected title are three rows; row k has id k, name title + " - Detail k" and value k00 |
| `Shell.InitialModel` | main.go:32-84 | startup has focus on the list, the sample rows, the table focused and the list showing help; so the flags disagree with the focus; the three demo items are "Item 1" to "Item 3"; no panel has received anything yet |
| `Shell.Update` | main.go:90-149 | the step-by-step update yields exactly the new model and command that `Shell.Next` specifies; `Next` itself has no row, because the lemmas below state its promises message kind by message kind |
| `ShellProperties.TabFromList` | main.go:106-111 | tab with the list focused moves focus to the table, hides the help, focuses the table, forwards nothing and changes nothing else |
| `ShellProperties.TabFromTable` | main.go:112-117 | tab with the table focused moves focus to the list, shows the help, blurs the table, forwards nothing and changes nothing else |
| `ShellProperties.TabTwice` | main.go:106-117 | two tabs restore the focus tag and leave the flags in agreement with it; from a state whose flags already agree they are the identity |
| `ShellProperties.QuitKeepsModel` | main.go:104-105 | `q` or `ctrl+c` returns the quit command and the unchanged model, whatever the focus |
| `ShellProperties.QuitOnlyOnQuitKeys` | main.go:102-148 | the shell's own switch returns the quit command if and only if the message is the `q` or `ctrl+c` key, and returns the panels' commands if and only if it forwards the message |
| `ShellProperties.ResizeSetsSizes` | main.go:94-100 | a resize to W by H stores W and H, sizes the list to (W/2 - 4, H - 2) and the table to width W/2 - 4, and leaves focus, rows, flags and the panels' histories unchanged |
| `ShellProperties.ResizeExample` | main.go:97-99 | a 100 by 40 viewport gives the list 46 by 38 and the table 46 |
| `ShellProperties.ResizeGoesNegative` | main.go:98-99 | nothing clamps: 5 by 1 gives list size (-2, -1); width -3 gives list width -5 |
| `ShellProperties.SelectionMovesToTable` | main.go:121-146 | a forwarded message with the list focused and an item selected sets the rows to that item's detail rows, moves focus to the table, hides the help, focuses the table, and both panels receive the message, the table only after it is refilled and focused |
| `ShellProperties.NoSelectionOnlyForwards` | main.go:121-148 | a forwarded message with the table focused, or with nothing selected, only reaches the two panels; focus, flags and rows are unchanged |
| `ShellProperties.ForwardedExactly` | main.go:93-124 | the panels receive a message exactly when it is not a resize, a quit key or tab |
| `ShellProperties.TableHandlesWhileFocused` | main.go:135-145 | from coherent flags, the table handles a forwarded message while focused exactly when the focus ends on the table or the startup flags still hold |
| `ShellProperties.RowsChangeOnlyOnSwitch` | main.go:127-137 | the rows change only when focus moves from the list to the table |
| `ShellProperties.StepKeepsCoherent` | main.go:106-140 | every update keeps the flags agreeing with the focus or at their startup values; agreement once reached is kept; any focus change leaves the flags agreeing |
| `ShellProperties.RunKeepsCoherent` | main.go:90-149 | over any sequence of messages the flags stay coherent, and agreement is kept |
| `ShellProperties.DisagreeUntilFocusMoves` | main.go:59-83 | from the startup flags, a run ends with agreeing flags if and only if the focus moved during it, and keeps the startup flags if it never did |
| `ShellProperties.InitialRunsCoherent` | main.go:79-83 | every run from the initial state ends with coherent flags |
| `ShellProperties.RunStopsOnQuit` | main.go:104-105 | in the model's loop, after `q` or `ctrl+c`, or after a forwarded message whose panel commands quit, the run ends and later messages change nothing |
| `ShellProperties.RunKeepsTemplatedRows` | main.go:127-135 | over any run in which the list reports only its own items, the list's items never change and the table holds three rows: the samples or the detail rows of one of those items |
| `ShellProperties.DownDownFromStartup` | main.go:121-140 | from startup, Down (list now on "Item 2") then Down gives focus to the table with the detail rows of "Item 2", the flags in agreement, and both keys handed to the list and to the focused table |

## Left out

- Rendering (`View`) and all styling are left out. They only produce text through the styling library.
- Program start-up and terminal I/O (`main`) are left out. The event loop is modelled only as `Shell.Run`, which delivers messages in order and stops after a quit. `Run` has no row: the run lemmas state what it does.
- The commands the panels return, and how they are batched, are left out. They appear only as the opaque `WidgetCommands`.
- The panels' internals are left out: cursor movement, paging, filtering, the table's cursor reset when rows are replaced, and the effect of size on layout. What the list reports as selected is an input to each update.
- A typed `q` quits even while the list is in filter mode. The model has no filter mode, so this follows only from the key routing.
- The focus tag is a string in the source. It is an enumeration here because only "list" and "table" are ever assigned. Tab's else branch, taken for any tag other than "list", then means "table".
- Shell.InitialModel: the list's 0 by 0 size is the source's own literal. The list showing its help and the table's zero width before the first resize are the widget library's defaults, which are not part of this model. Table height 7 is the value passed to the library, not the height it renders.
- ShellProperties.QuitOnlyOnQuitKeys: speaks only of the shell's own command. The panels' batched commands can also quit: the list's default key map quits on `esc` whatever the focus. The model does not derive when the list does this. Each event carries it as the `panelsQuit` flag, and `Run` stops on it.
- ShellProperties.RunStopsOnQuit: the real event loop runs a returned quit asynchronously. Messages already queued, such as keys typed ahead, still reach the update after `q`, and a quit batched from the panels arrives later still. The model's `Run` stops at once instead. The invariants over runs are unaffected, because every single update keeps them.
- ShellProperties.ResizeSetsSizes: viewport sizes are unbounded integers. The source's 64-bit `int` wraps around at its extremes, for example `Height - 2` below the smallest value plus 2, and that is not modelled.
- list.go and table.go are not part of this model. They are thin wrappers whose setters change a copy and are lost. list.go also redeclares the item type, so it cannot build with main.go. Nothing in main.go uses the Enter-to-select message they define.
