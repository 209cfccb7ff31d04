// The messages the dashboard receives from the terminal runtime and the
// commands it hands back. A command is a tag for an effect the runtime
// performs later; nothing here performs one.

module Tea {
  import opened Hosts

  datatype Msg =
    | ClearStatus                          // the status-clearing tick fired
    | RescanComplete(hosts: seq<HostInfo>) // a background rescan succeeded
    | RescanError(err: string)             // a background rescan failed; the error's text
    | KeyPress(key: Key)                   // a key press
    | OtherMsg                             // anything else (window size, mouse), left to the table widget

  /**
   * A key as the runtime names it: the named keys the dashboard reacts
   * to, a printable character, or any other key (arrows, backspace, ...),
   * which only the focused widget handles. A key whose name is "esc",
   * "enter", "ctrl+c" or a single character is always given by its own
   * constructor, never as OtherKey.
   */
  datatype Key = Esc | Enter | CtrlC | Rune(c: char) | OtherKey(name: string)

  datatype Cmd =
    | NoCmd                                // nil
    | Quit
    | ClearStatusAfter(ms: int)            // a tick that delivers ClearStatus after `ms` milliseconds
    | Rescan(cidr: string)                 // run a discovery scan of `cidr` in the background
    | Exec(args: seq<string>)              // hand the terminal to an external process
    | Delegated                            // whatever the focused widget (table or text input) returns
}
