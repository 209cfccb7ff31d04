// The earlier single-prompt dashboard (internal/ui/ui.go): a fixed table of
// the scanned hosts, an ssh prompt shown over it, quit, and focus toggling.
// Its rows are built by the same buildRows as the current dashboard
// (Helpers.BuildRows); column widths, styles and placement are not modelled.

module LegacyUi {
  import opened GoStrings
  import opened Hosts
  import opened Helpers
  import opened Tea

  /** The column titles of buildColumns, in order. */
  const LegacyTitles: seq<string> := ["Id", "IP", "MAC", "Vendor", "Hostname"]

  const LegacyFooter: string := "[q/ctrl+c: quit] [esc: focus/blur] [s: ssh]"

  /** What the widgets supply to one update: the table's selected row and the prompt's text after the key. */
  datatype Input = Input(selectedRow: Row, edited: string)

  datatype Prompted = Prompted(rows: seq<Row>, tableFocused: bool, showPrompt: bool, usernameInput: string, selectedIP: string)

  datatype Reaction = Reaction(next: Prompted, cmd: Cmd)

  /** NewUIModel: the hosts' rows in a focused table, no prompt. */
  function LegacyInitial(hosts: seq<HostInfo>): Prompted
  {
    Prompted(TableRows(hosts), true, false, "", "")
  }

  /** The keys while the prompt is shown. */
  function PromptKeys(s: Prompted, key: Key, input: Input): Reaction
  {
    if key == Esc then
      Reaction(s.(showPrompt := false, usernameInput := "", tableFocused := true), NoCmd)
    else if key == Enter then
      if s.usernameInput == "" then Reaction(s, NoCmd)
      else Reaction(s.(showPrompt := false, usernameInput := ""), Exec(["ssh", s.usernameInput + "@" + s.selectedIP]))
    else
      Reaction(s.(usernameInput := input.edited), Delegated)
  }

  /** The keys over the table; every key the switch does not return on reaches the table. */
  function TableKeys(s: Prompted, key: Key, input: Input): Reaction
  {
    var row := input.selectedRow;
    if key == Esc then Reaction(s.(tableFocused := !s.tableFocused), Delegated)
    else if key == Rune('q') || key == CtrlC then Reaction(s, Quit)
    else if key == Rune('s') && |row| > 1 && row[1] != NoHostsText then
      Reaction(s.(selectedIP := row[1], showPrompt := true, tableFocused := false), NoCmd)
    else Reaction(s, Delegated)
  }

  /** UIModel.Update */
  function LegacyStep(s: Prompted, msg: Msg, input: Input): Reaction
  {
    match msg
    case KeyPress(key) => if s.showPrompt then PromptKeys(s, key, input) else TableKeys(s, key, input)
    case _ => Reaction(s, Delegated)
  }

  /** UIModel.View: the prompt alone while it is shown, the table above the footer otherwise. */
  function LegacyView(s: Prompted, tableView: string, inputView: string): string
  {
    if s.showPrompt then "SSH to " + s.selectedIP + "\n\n" + inputView + "\n\n[enter: connect] [esc: cancel]"
    else tableView + "\n" + LegacyFooter
  }

  /** The table never has focus under the prompt, and the prompt never names the placeholder row. */
  predicate LegacyInv(s: Prompted)
  {
    s.showPrompt ==> !s.tableFocused && s.selectedIP != NoHostsText
  }

  // ---------------------------------------------------------------------
  // Properties
  // ---------------------------------------------------------------------

  /** The titles are those of the current dashboard when no column is sorted. */
  lemma LegacyTitlesUnsorted(ascending: bool)
    ensures LegacyTitles == ColumnTitles(0, ascending)
    ensures |LegacyTitles| == 5 && LegacyTitles[0] == "Id"
  {
  }

  lemma LegacyInitialInv(hosts: seq<HostInfo>)
    ensures LegacyInv(LegacyInitial(hosts))
    ensures !LegacyInitial(hosts).showPrompt && LegacyInitial(hosts).tableFocused
    ensures LegacyInitial(hosts).rows == TableRows(hosts)
  {
  }

  /** Every update keeps the invariant, and none of them touches the rows. */
  lemma LegacyStepInv(s: Prompted, msg: Msg, input: Input)
    requires LegacyInv(s)
    ensures LegacyInv(LegacyStep(s, msg, input).next)
    ensures LegacyStep(s, msg, input).next.rows == s.rows
  {
  }

  /**
   * "s" opens the prompt for the selected address exactly when the row is
   * a real host; on the placeholder the key goes to the table.
   */
  lemma SshKeyOpensPrompt(s: Prompted, input: Input)
    requires !s.showPrompt && |input.selectedRow| > 1
    ensures var r := LegacyStep(s, KeyPress(Rune('s')), input);
      && (r.next.showPrompt <==> input.selectedRow[1] != NoHostsText)
      && (r.next.showPrompt ==> r.next.selectedIP == input.selectedRow[1] && r.cmd == NoCmd)
      && (!r.next.showPrompt ==> r == Reaction(s, Delegated))
  {
  }

  /**
   * Under the prompt, q and ctrl+c are typed into the username rather than
   * quitting; outside it they quit and change nothing.
   */
  lemma QuitOnlyOutsidePrompt(s: Prompted, key: Key, input: Input)
    requires key == Rune('q') || key == CtrlC
    ensures var r := LegacyStep(s, KeyPress(key), input);
      && (r.cmd == Quit <==> !s.showPrompt)
      && (s.showPrompt ==> r.next == s.(usernameInput := input.edited))
      && (!s.showPrompt ==> r.next == s)
  {
  }

  /**
   * Enter under the prompt does nothing while the username is empty, and
   * otherwise closes the prompt, clears the username and runs ssh to
   * user@address; esc closes it, clears the username and refocuses the table.
   */
  lemma PromptExits(s: Prompted, input: Input)
    requires s.showPrompt
    ensures LegacyStep(s, KeyPress(Enter), input) ==
      if s.usernameInput == "" then Reaction(s, NoCmd)
      else Reaction(s.(showPrompt := false, usernameInput := ""), Exec(["ssh", s.usernameInput + "@" + s.selectedIP]))
    ensures LegacyStep(s, KeyPress(Esc), input) ==
      Reaction(s.(showPrompt := false, usernameInput := "", tableFocused := true), NoCmd)
  {
  }

  /** Esc over the table toggles its focus; twice restores it. */
  lemma EscTogglesFocus(s: Prompted, input: Input)
    requires !s.showPrompt
    ensures var once := LegacyStep(s, KeyPress(Esc), input).next;
      && once.tableFocused == !s.tableFocused
      && LegacyStep(once, KeyPress(Esc), input).next == s
  {
  }

  /** The view shows the prompt exactly while it is open, and the footer otherwise. */
  lemma LegacyViewShape(s: Prompted, tableView: string, inputView: string)
    ensures s.showPrompt ==> HasPrefix(LegacyView(s, tableView, inputView), "SSH to " + s.selectedIP + "\n\n")
    ensures !s.showPrompt ==> HasSuffix(LegacyView(s, tableView, inputView), "\n" + LegacyFooter)
  {
    if s.showPrompt {
      var head := "SSH to " + s.selectedIP + "\n\n";
      assert LegacyView(s, tableView, inputView) == head + (inputView + "\n\n[enter: connect] [esc: cancel]");
      PrefixOfConcat(head, inputView + "\n\n[enter: connect] [esc: cancel]");
    } else {
      assert LegacyView(s, tableView, inputView) == tableView + ("\n" + LegacyFooter);
      SuffixOfConcat(tableView, "\n" + LegacyFooter);
    }
  }

  // ---------------------------------------------------------------------
  // The model
  // ---------------------------------------------------------------------

  /** UIModel of ui.go; `rows` is what its table was built with. */
  class LegacyModel {
    const rows: seq<Row>
    var tableFocused: bool
    var showPrompt: bool
    var usernameInput: string
    var selectedIP: string

    function State(): Prompted
      reads this
    {
      Prompted(rows, tableFocused, showPrompt, usernameInput, selectedIP)
    }

    predicate Valid()
      reads this
    {
      LegacyInv(State())
    }

    /** NewUIModel */
    constructor(hosts: seq<HostInfo>)
      ensures State() == LegacyInitial(hosts) && Valid()
    {
      var built := BuildRows(hosts);
      rows := built;
      tableFocused := true;
      showPrompt := false;
      usernameInput := "";
      selectedIP := "";
    }

    /** UIModel.Update */
    method Update(msg: Msg, input: Input) returns (cmd: Cmd)
      requires Valid()
      modifies this
      ensures Reaction(State(), cmd) == LegacyStep(old(State()), msg, input)
      ensures Valid()
    {
      LegacyStepInv(State(), msg, input);
      if !msg.KeyPress? {
        return Delegated;
      }
      var key := msg.key;
      if showPrompt {
        if key == Esc {
          showPrompt := false;
          usernameInput := "";
          tableFocused := true;
          return NoCmd;
        } else if key == Enter {
          var username := usernameInput;
          if username == "" {
            return NoCmd;
          }
          showPrompt := false;
          usernameInput := "";
          return Exec(["ssh", username + "@" + selectedIP]);
        } else {
          usernameInput := input.edited;
          return Delegated;
        }
      }
      if key == Esc {
        tableFocused := !tableFocused;
      } else if key == Rune('q') || key == CtrlC {
        return Quit;
      } else if key == Rune('s') {
        var row := input.selectedRow;
        if |row| > 1 && row[1] != NoHostsText {
          selectedIP := row[1];
          showPrompt := true;
          tableFocused := false;
          return NoCmd;
        }
      }
      cmd := Delegated;
    }
  }
}
