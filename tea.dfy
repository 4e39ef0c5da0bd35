/** The event-loop vocabulary the shell sees: incoming messages and the
    command it hands back. Only the distinctions the shell makes are kept. */
module Tea {

  /** An incoming message. A key press is identified by its printable name
      (`"q"`, `"ctrl+c"`, `"tab"`, `"down"`, ...); every message that is
      neither a resize nor a key press is `Other`, told apart by an opaque tag. */
  datatype Msg =
    | WindowSize(width: int, height: int)
    | Key(name: string)
    | Other(tag: nat)

  /** What an update asks the event loop to do next: nothing, stop the
      program, or run the batch of commands the two widgets returned (those
      commands themselves are opaque). */
  datatype Command = NoCommand | Quit | WidgetCommands
}
