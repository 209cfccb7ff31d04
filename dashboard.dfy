// The dashboard's state machine (internal/ui/update.go). Each handler is
// specified by a function from the old state to an Outcome (new state,
// command, text written to the clipboard); the class UIModel implements
// the handlers by assigning its fields step by step and is proved to
// produce exactly that Outcome. The lemmas state what the handlers promise.

module Dashboard {
  import opened Maybe
  import opened GoStrings
  import opened Hosts
  import opened Helpers
  import opened Tea
  import opened UiState

  /**
   * What a handler may read from outside the model: the table's selected
   * row, whether a clipboard write succeeds, the value the focused text
   * input holds after it has handled the key, and the clock.
   */
  datatype Env = Env(selectedRow: Row, clipboardOk: bool, edited: string, now: int)

  /** The new state, the command returned, and the text handed to the clipboard, if any. */
  datatype Outcome = Outcome(next: Session, cmd: Cmd, copied: Option<string>)

  const RescanStatusMs: int := 3000
  const ErrorStatusMs: int := 5000
  const ShortStatusMs: int := 2000

  // ---------------------------------------------------------------------
  // The host list and the table built from it
  // ---------------------------------------------------------------------

  /** The hosts the table shows, in display order. */
  function Displayed(l: Listing): seq<HostInfo>
  {
    if l.sortColumn > 0 then SortedHosts(l.filteredHosts, l.sortColumn, l.sortAscending)
    else l.filteredHosts
  }

  /** rebuildTable: the titles and rows the table gets from the list's filter and sort. */
  function GridOf(l: Listing): Grid
  {
    Grid(ColumnTitles(l.sortColumn, l.sortAscending), TableRows(Displayed(l)))
  }

  function Rebuilt(s: Session): Session
  {
    s.(grid := GridOf(s.listing))
  }

  /** The list is consistent: a known sort column, and the filtered hosts are the query's matches. */
  predicate ListingOk(l: Listing)
  {
    && 0 <= l.sortColumn <= 4
    && l.searchActive == (l.searchQuery != "")
    && l.filteredHosts == Filter(l.allHosts, l.searchQuery)
  }

  /** A new scan result, with the applied query re-run on it. */
  function Refreshed(l: Listing, hosts: seq<HostInfo>): Listing
  {
    l.(allHosts := hosts, filteredHosts := if l.searchActive then Filter(hosts, l.searchQuery) else hosts)
  }

  /** A new query applied to all hosts; the empty query shows them all. */
  function Queried(l: Listing, query: string): Listing
  {
    var active := query != "";
    l.(searchQuery := query, searchActive := active,
       filteredHosts := if active then Filter(l.allHosts, query) else l.allHosts)
  }

  /** The "1".."4" keys: the same column flips direction, a new one starts ascending. */
  function Resorted(l: Listing, col: int): Listing
  {
    if l.sortColumn == col then l.(sortAscending := !l.sortAscending)
    else l.(sortColumn := col, sortAscending := true)
  }

  lemma RefreshedOk(l: Listing, hosts: seq<HostInfo>)
    requires ListingOk(l)
    ensures ListingOk(Refreshed(l, hosts))
    ensures Refreshed(l, hosts).filteredHosts == Filter(hosts, l.searchQuery)
  {
  }

  lemma QueriedOk(l: Listing, query: string)
    requires 0 <= l.sortColumn <= 4
    ensures ListingOk(Queried(l, query))
    ensures Queried(l, query).filteredHosts == Filter(l.allHosts, query)
  {
  }

  lemma ResortedOk(l: Listing, col: int)
    requires ListingOk(l) && 1 <= col <= 4
    ensures ListingOk(Resorted(l, col))
    ensures Resorted(l, col).sortColumn == col
    ensures Resorted(l, col).sortAscending == (l.sortColumn != col || !l.sortAscending)
  {
  }

  /** Choosing the current sort column twice restores the list. */
  lemma ResortedTwice(l: Listing, col: int)
    requires l.sortColumn == col
    ensures Resorted(Resorted(l, col), col) == l
  {
  }

  /**
   * The table always shows the filtered hosts (a permutation of them, in
   * scan order when unsorted), adjacent rows ordered by the sort column,
   * one row per host or the placeholder alone.
   */
  lemma ShownRows(l: Listing)
    requires ListingOk(l)
    ensures multiset(Displayed(l)) == multiset(Filter(l.allHosts, l.searchQuery))
    ensures l.sortColumn == 0 ==> Displayed(l) == l.filteredHosts
    ensures AdjacentOrdered(Displayed(l), l.sortColumn, l.sortAscending)
    ensures |GridOf(l).columns| == 5
    ensures GridOf(l).rows == TableRows(Displayed(l))
    ensures |GridOf(l).rows| == if |l.filteredHosts| == 0 then 1 else |l.filteredHosts|
  {
    SortedHostsProperties(l.filteredHosts, l.sortColumn, l.sortAscending);
  }

  // ---------------------------------------------------------------------
  // The handlers
  // ---------------------------------------------------------------------

  /** The state after construction with the first scan's hosts. */
  function Initial(hosts: seq<HostInfo>, cidr: string): Session
  {
    var l := Listing(hosts, hosts, "", false, 0, false);
    Session(
      mode := Normal, isScanning := false, cidr := cidr,
      listing := l, grid := GridOf(l), tableFocused := true,
      searchInput := "", searchFocused := false,
      usernameInput := "", usernameFocused := true,
      statusMessage := "", statusExpiry := 0, selectedIP := "")
  }

  /** What every reachable state satisfies. */
  predicate Inv(s: Session)
  {
    && ListingOk(s.listing)
    && s.grid == GridOf(s.listing)
    && (s.mode != Normal ==> !s.tableFocused)
    && s.searchFocused == (s.mode == Search)
    && (s.mode == SshPrompt ==> s.selectedIP != NoHostsText)
  }

  function OnRescanComplete(s: Session, hosts: seq<HostInfo>, now: int): Outcome
  {
    var l := Refreshed(s.listing, hosts);
    Outcome(
      Rebuilt(s.(isScanning := false, listing := l)).(
         statusMessage := "Rescan complete: " + Itoa(|hosts|) + " host(s) found",
         statusExpiry := now + RescanStatusMs),
      ClearStatusAfter(RescanStatusMs), None)
  }

  function OnRescanError(s: Session, err: string, now: int): Outcome
  {
    Outcome(
      s.(isScanning := false, statusMessage := "Rescan failed: " + err, statusExpiry := now + ErrorStatusMs),
      ClearStatusAfter(ErrorStatusMs), None)
  }

  /** handleHelpKeys */
  function HelpKeys(s: Session, key: Key): Outcome
  {
    if key == Esc || key == Rune('q') || key == Rune('?') then Outcome(s.(mode := Normal, tableFocused := true), NoCmd, None)
    else Outcome(s, NoCmd, None)
  }

  /** Enter in the search box: the typed text becomes the applied query. */
  function SearchApply(s: Session, env: Env): Outcome
  {
    var l := Queried(s.listing, s.searchInput);
    Outcome(
      Rebuilt(s.(listing := l)).(mode := Normal, searchFocused := false, tableFocused := true,
         statusMessage := "Found " + Itoa(|l.filteredHosts|) + " host(s)", statusExpiry := env.now + ShortStatusMs),
      ClearStatusAfter(ShortStatusMs), None)
  }

  /** handleSearchKeys */
  function SearchKeys(s: Session, key: Key, env: Env): Outcome
  {
    if key == Esc then
      Outcome(s.(mode := Normal, searchInput := "", searchFocused := false, tableFocused := true), NoCmd, None)
    else if key == Enter then SearchApply(s, env)
    else
      Outcome(s.(searchInput := env.edited), Delegated, None)
  }

  /** handleSSHPromptKeys */
  function SshPromptKeys(s: Session, key: Key, env: Env): Outcome
  {
    if key == Esc then
      Outcome(s.(mode := Normal, usernameInput := "", tableFocused := true), NoCmd, None)
    else if key == Enter then
      if s.usernameInput == "" then Outcome(s, NoCmd, None)
      else Outcome(s.(usernameInput := ""), Exec(["ssh", s.usernameInput + "@" + s.selectedIP]), None)
    else
      Outcome(s.(usernameInput := env.edited), Delegated, None)
  }

  predicate IsSortKey(key: Key)
  {
    key == Rune('1') || key == Rune('2') || key == Rune('3') || key == Rune('4')
  }

  predicate IsCopyKey(key: Key)
  {
    key == Rune('y') || key == Rune('m') || key == Rune('h') || key == Rune('a')
  }

  /** The sort key's column: the digit's value. */
  function SortKeyColumn(key: Key): (col: int)
    requires IsSortKey(key)
    ensures 1 <= col <= 4
  {
    key.c as int - '0' as int
  }

  /** How many cells a copy key needs in the selected row. */
  function CopyMinCells(key: Key): int
  {
    if key == Rune('y') then 2 else if key == Rune('m') then 3 else 5
  }

  /** The text a copy key writes: IP, MAC, hostname, or IP, MAC, vendor and hostname joined by tabs. */
  function CopyText(key: Key, row: Row): string
    requires |row| >= CopyMinCells(key)
  {
    if key == Rune('y') then row[1]
    else if key == Rune('m') then row[2]
    else if key == Rune('h') then row[4]
    else row[1] + "\t" + row[2] + "\t" + row[3] + "\t" + row[4]
  }

  function CopyStatus(key: Key): string
  {
    if key == Rune('y') then "IP copied to clipboard!"
    else if key == Rune('m') then "MAC address copied to clipboard!"
    else if key == Rune('h') then "Hostname copied to clipboard!"
    else "All fields copied to clipboard!"
  }

  /**
   * A copy key: acts only on a real row with enough cells; the status is
   * set only when the write succeeds, otherwise the key goes on to the table.
   */
  function CopyKey(s: Session, key: Key, env: Env): Outcome
  {
    var row := env.selectedRow;
    if |row| >= CopyMinCells(key) && row[1] != NoHostsText then
      var text := CopyText(key, row);
      if env.clipboardOk then
        Outcome(s.(statusMessage := CopyStatus(key), statusExpiry := env.now + ShortStatusMs),
                ClearStatusAfter(ShortStatusMs), Some(text))
      else Outcome(s, Delegated, Some(text))
    else Outcome(s, Delegated, None)
  }

  /** A sort key: the list re-sorted and the table rebuilt. */
  function SortKey(s: Session, col: int): Outcome
  {
    var l := Resorted(s.listing, col);
    Outcome(Rebuilt(s.(listing := l)), NoCmd, None)
  }

  /** ? opens the help screen, taking focus from the table. */
  function HelpKey(s: Session): Outcome
  {
    Outcome(s.(mode := Help, tableFocused := false), NoCmd, None)
  }

  /** / opens the search box, moving focus from the table to it. */
  function SearchKey(s: Session): Outcome
  {
    Outcome(s.(mode := Search, searchFocused := true, tableFocused := false), NoCmd, None)
  }

  /** Esc toggles the table's focus, then the table sees the key too. */
  function FocusKey(s: Session): Outcome
  {
    Outcome(s.(tableFocused := !s.tableFocused), Delegated, None)
  }

  /** r starts a rescan unless one is already running. */
  function RescanKey(s: Session): Outcome
  {
    if s.isScanning then Outcome(s, NoCmd, None)
    else Outcome(s.(isScanning := true), Rescan(s.cidr), None)
  }

  /** s opens the ssh prompt for the selected row's address; on the placeholder the table gets the key. */
  function SshKey(s: Session, env: Env): Outcome
  {
    var row := env.selectedRow;
    if |row| > 1 && row[1] != NoHostsText then
      Outcome(s.(selectedIP := row[1], mode := SshPrompt, tableFocused := false, usernameFocused := true), NoCmd, None)
    else Outcome(s, Delegated, None)
  }

  /** handleNormalKeys */
  function NormalKeys(s: Session, key: Key, env: Env): Outcome
  {
    if key == Rune('?') then HelpKey(s)
    else if key == Rune('/') then SearchKey(s)
    else if key == Esc then FocusKey(s)
    else if key == Rune('q') || key == CtrlC then Outcome(s, Quit, None)
    else if IsSortKey(key) then SortKey(s, SortKeyColumn(key))
    else if key == Rune('r') then RescanKey(s)
    else if IsCopyKey(key) then CopyKey(s, key, env)
    else if key == Rune('s') then SshKey(s, env)
    else Outcome(s, Delegated, None)
  }

  /** A key press: ignored while scanning, otherwise handled by the current mode. */
  function KeyOutcome(s: Session, key: Key, env: Env): Outcome
  {
    if s.isScanning then Outcome(s, NoCmd, None)
    else
      match s.mode
      case Help => HelpKeys(s, key)
      case Search => SearchKeys(s, key, env)
      case SshPrompt => SshPromptKeys(s, key, env)
      case Normal => NormalKeys(s, key, env)
  }

  /** UIModel.Update */
  function Step(s: Session, msg: Msg, env: Env): Outcome
  {
    match msg
    case ClearStatus => Outcome(s.(statusMessage := ""), NoCmd, None)
    case RescanComplete(hosts) => OnRescanComplete(s, hosts, env.now)
    case RescanError(err) => OnRescanError(s, err, env.now)
    case KeyPress(key) => KeyOutcome(s, key, env)
    case OtherMsg => Outcome(s, Delegated, None)
  }

  // ---------------------------------------------------------------------
  // Properties
  // ---------------------------------------------------------------------

  /** The freshly constructed dashboard satisfies the invariant and shows the hosts in scan order. */
  lemma InitialInv(hosts: seq<HostInfo>, cidr: string)
    ensures Inv(Initial(hosts, cidr))
    ensures Initial(hosts, cidr).grid.rows == TableRows(hosts)
  {
  }

  lemma NormalKeysInv(s: Session, key: Key, env: Env)
    requires Inv(s) && s.mode == Normal
    ensures Inv(NormalKeys(s, key, env).next)
  {
    if key == Rune('?') {
      assert Inv(HelpKey(s).next);
    } else if key == Rune('/') {
      assert Inv(SearchKey(s).next);
    } else if key == Esc || key == Rune('q') || key == CtrlC {
    } else if IsSortKey(key) {
      ResortedOk(s.listing, SortKeyColumn(key));
      assert Inv(SortKey(s, SortKeyColumn(key)).next);
    } else if key == Rune('r') {
      assert Inv(RescanKey(s).next);
    } else if IsCopyKey(key) {
      assert Inv(CopyKey(s, key, env).next);
    } else if key == Rune('s') {
      assert Inv(SshKey(s, env).next);
    }
  }

  lemma SearchKeysInv(s: Session, key: Key, env: Env)
    requires Inv(s) && s.mode == Search
    ensures Inv(SearchKeys(s, key, env).next)
  {
    if key == Enter {
      QueriedOk(s.listing, s.searchInput);
    }
  }

  /** Every message keeps the invariant. */
  lemma StepInv(s: Session, msg: Msg, env: Env)
    requires Inv(s)
    ensures Inv(Step(s, msg, env).next)
  {
    match msg
    case KeyPress(key) =>
      if !s.isScanning {
        match s.mode
        case Normal => NormalKeysInv(s, key, env);
        case Search => SearchKeysInv(s, key, env);
        case Help =>
        case SshPrompt =>
      }
    case RescanComplete(hosts) => RefreshedOk(s.listing, hosts);
    case _ =>
  }

  /** The clearing tick empties the status and touches nothing else. */
  lemma ClearStatusOnlyClears(s: Session, env: Env)
    ensures Step(s, ClearStatus, env) == Outcome(s.(statusMessage := ""), NoCmd, None)
  {
  }

  /** While a rescan runs every key is ignored. */
  lemma KeysIgnoredWhileScanning(s: Session, key: Key, env: Env)
    requires s.isScanning
    ensures Step(s, KeyPress(key), env) == Outcome(s, NoCmd, None)
  {
  }

  /**
   * A finished rescan replaces the hosts, re-applies the current query,
   * shows the count for three seconds and asks for the clearing tick.
   */
  lemma RescanCompleteFacts(s: Session, hosts: seq<HostInfo>, env: Env)
    requires Inv(s)
    ensures var o := Step(s, RescanComplete(hosts), env);
      && !o.next.isScanning
      && o.next.listing.allHosts == hosts
      && o.next.listing.filteredHosts == Filter(hosts, s.listing.searchQuery)
      && o.next.listing.searchQuery == s.listing.searchQuery && o.next.mode == s.mode
      && o.next.statusMessage == "Rescan complete: " + Itoa(|hosts|) + " host(s) found"
      && o.next.statusExpiry == env.now + RescanStatusMs
      && o.cmd == ClearStatusAfter(RescanStatusMs)
  {
    RefreshedOk(s.listing, hosts);
  }

  /** A failed rescan keeps the hosts and the table and reports the error for five seconds. */
  lemma RescanErrorKeepsHosts(s: Session, err: string, env: Env)
    ensures var o := Step(s, RescanError(err), env);
      && !o.next.isScanning
      && o.next.listing == s.listing && o.next.grid == s.grid
      && o.next.statusMessage == "Rescan failed: " + err
      && o.cmd == ClearStatusAfter(ErrorStatusMs)
  {
  }

  /** A sort key on a new column sorts by it ascending. */
  lemma SortKeyNewColumn(s: Session, key: Key, env: Env)
    requires !s.isScanning && s.mode == Normal && IsSortKey(key)
    requires s.listing.sortColumn != SortKeyColumn(key)
    ensures var o := Step(s, KeyPress(key), env);
      o.next.listing.sortColumn == SortKeyColumn(key) && o.next.listing.sortAscending && o.cmd == NoCmd
  {
    SortKeyStep(s, key, env);
  }

  /** In the table view a digit key is handled by the sort branch alone. */
  lemma SortKeyStep(s: Session, key: Key, env: Env)
    requires !s.isScanning && s.mode == Normal && IsSortKey(key)
    ensures Step(s, KeyPress(key), env) == SortKey(s, SortKeyColumn(key))
  {
    assert key != Rune('?') && key != Rune('/') && key != Esc && key != Rune('q') && key != CtrlC;
    assert NormalKeys(s, key, env) == SortKey(s, SortKeyColumn(key));
  }

  /** Pressing the current sort column's key twice restores the dashboard exactly. */
  lemma SortKeyTwiceRestores(s: Session, key: Key, env: Env)
    requires Inv(s) && !s.isScanning && s.mode == Normal && IsSortKey(key)
    requires s.listing.sortColumn == SortKeyColumn(key)
    ensures var once := Step(s, KeyPress(key), env).next;
      once.listing.sortColumn == s.listing.sortColumn && once.listing.sortAscending == !s.listing.sortAscending
      && Step(once, KeyPress(key), env).next == s
  {
    SortKeyStep(s, key, env);
    ResortedTwice(s.listing, SortKeyColumn(key));
  }

  /** Esc in the search box discards the typed text and keeps the applied filter. */
  lemma SearchEscKeepsFilter(s: Session, env: Env)
    requires !s.isScanning && s.mode == Search
    ensures var o := Step(s, KeyPress(Esc), env);
      && o.next.mode == Normal && o.next.searchInput == ""
      && o.next.listing == s.listing && o.next.grid == s.grid
      && o.next.tableFocused && o.cmd == NoCmd
  {
  }

  /** Enter in the search box applies the typed query to all hosts and reports the match count. */
  lemma SearchEnterApplies(s: Session, env: Env)
    requires !s.isScanning && s.mode == Search && 0 <= s.listing.sortColumn <= 4
    ensures var o := Step(s, KeyPress(Enter), env);
      && o.next.mode == Normal
      && o.next.listing.searchQuery == s.searchInput
      && o.next.listing.searchActive == (s.searchInput != "")
      && o.next.listing.filteredHosts == Filter(s.listing.allHosts, s.searchInput)
      && o.next.statusMessage == "Found " + Itoa(|o.next.listing.filteredHosts|) + " host(s)"
      && o.cmd == ClearStatusAfter(ShortStatusMs)
  {
    QueriedOk(s.listing, s.searchInput);
  }

  /** The help screen closes on esc, q or ? and ignores every other key. */
  lemma HelpClosesOnlyOnItsKeys(s: Session, key: Key, env: Env)
    requires !s.isScanning && s.mode == Help
    ensures var o := Step(s, KeyPress(key), env);
      (o.next.mode == Normal <==> key in {Esc, Rune('q'), Rune('?')})
      && (key !in {Esc, Rune('q'), Rune('?')} ==> o.next == s)
      && o.cmd == NoCmd
  {
  }

  /** In Normal mode ? opens the help screen and / the search box, both taking focus from the table. */
  lemma NormalModeTransitions(s: Session, env: Env)
    requires !s.isScanning && s.mode == Normal
    ensures Step(s, KeyPress(Rune('?')), env).next == s.(mode := Help, tableFocused := false)
    ensures Step(s, KeyPress(Rune('/')), env).next == s.(mode := Search, searchFocused := true, tableFocused := false)
  {
  }

  /**
   * In the ssh prompt, esc leaves it and clears the name; enter with no
   * name does nothing; enter with a name clears it and runs ssh to the
   * selected address, staying in the prompt.
   */
  lemma SshPromptFacts(s: Session, env: Env)
    requires !s.isScanning && s.mode == SshPrompt
    ensures var o := Step(s, KeyPress(Esc), env);
      o.next.mode == Normal && o.next.usernameInput == "" && o.cmd == NoCmd
    ensures s.usernameInput == "" ==> Step(s, KeyPress(Enter), env) == Outcome(s, NoCmd, None)
    ensures s.usernameInput != "" ==>
      Step(s, KeyPress(Enter), env) ==
        Outcome(s.(usernameInput := ""), Exec(["ssh", s.usernameInput + "@" + s.selectedIP]), None)
  {
  }

  /** On the placeholder row the ssh and copy keys change nothing and write nothing. */
  lemma PlaceholderRowInert(s: Session, key: Key, env: Env)
    requires !s.isScanning && s.mode == Normal
    requires key == Rune('s') || IsCopyKey(key)
    requires env.selectedRow == Placeholder
    ensures Step(s, KeyPress(key), env) == Outcome(s, Delegated, None)
  {
  }

  /**
   * On a real row a copy key hands its text to the clipboard, and the
   * status changes exactly when the write succeeds.
   */
  lemma CopyKeyFacts(s: Session, key: Key, env: Env)
    requires !s.isScanning && s.mode == Normal && IsCopyKey(key)
    requires |env.selectedRow| == 5 && env.selectedRow[1] != NoHostsText
    ensures var o := Step(s, KeyPress(key), env);
      && o.copied == Some(CopyText(key, env.selectedRow))
      && (env.clipboardOk ==> o.next == s.(statusMessage := CopyStatus(key), statusExpiry := env.now + ShortStatusMs)
                              && o.cmd == ClearStatusAfter(ShortStatusMs))
      && (!env.clipboardOk ==> o.next == s && o.cmd == Delegated)
  {
  }

  /** The copy-all text is the four data cells joined by tabs. */
  lemma CopyAllJoinsByTabs(row: Row)
    requires |row| == 5
    ensures CopyText(Rune('a'), row) == Join(row[1..], '\t')
  {
    var p := row[1..];
    assert p[3..] == [row[4]];
    assert Join(p[3..], '\t') == row[4];
    assert p[2..][1..] == p[3..];
    assert Join(p[2..], '\t') == row[3] + "\t" + row[4];
    assert p[1..][1..] == p[2..];
    assert Join(p[1..], '\t') == row[2] + "\t" + row[3] + "\t" + row[4];
  }

  /** "r" starts a rescan of the dashboard's network, and s opens the prompt for the selected address. */
  lemma RescanAndSshKeys(s: Session, env: Env)
    requires !s.isScanning && s.mode == Normal
    ensures Step(s, KeyPress(Rune('r')), env) == Outcome(s.(isScanning := true), Rescan(s.cidr), None)
    ensures |env.selectedRow| > 1 && env.selectedRow[1] != NoHostsText ==>
      Step(s, KeyPress(Rune('s')), env).next ==
        s.(selectedIP := env.selectedRow[1], mode := SshPrompt, tableFocused := false, usernameFocused := true)
  {
  }

  // ---------------------------------------------------------------------
  // The model
  // ---------------------------------------------------------------------

  class UIModel {
    var mode: Mode
    var isScanning: bool
    const cidr: string
    var allHosts: seq<HostInfo>
    var filteredHosts: seq<HostInfo>
    var searchQuery: string
    var searchActive: bool
    var sortColumn: int
    var sortAscending: bool
    var columns: seq<string>
    var rows: seq<Row>
    var tableFocused: bool
    var searchInput: string
    var searchFocused: bool
    var usernameInput: string
    var usernameFocused: bool
    var statusMessage: string
    var statusExpiry: int
    var selectedIP: string

    function ListingState(): Listing
      reads this
    {
      Listing(allHosts, filteredHosts, searchQuery, searchActive, sortColumn, sortAscending)
    }

    function State(): Session
      reads this
    {
      Session(mode, isScanning, cidr, ListingState(), Grid(columns, rows), tableFocused,
              searchInput, searchFocused, usernameInput, usernameFocused,
              statusMessage, statusExpiry, selectedIP)
    }

    predicate Valid()
      reads this
    {
      Inv(State())
    }

    /** NewUIModel(hosts, scanner, cidr) */
    constructor (hosts: seq<HostInfo>, cidr: string)
      ensures State() == Initial(hosts, cidr)
      ensures Valid()
    {
      mode := Normal;
      isScanning := false;
      this.cidr := cidr;
      allHosts := hosts;
      filteredHosts := hosts;
      searchQuery := "";
      searchActive := false;
      sortColumn := 0;
      sortAscending := false;
      columns := [];
      rows := [];
      tableFocused := true;
      searchInput := "";
      searchFocused := false;
      usernameInput := "";
      usernameFocused := true;
      statusMessage := "";
      statusExpiry := 0;
      selectedIP := "";
      new;
      RebuildTable();
      InitialInv(hosts, cidr);
    }

    /** Shows a status message until the given time. */
    method SetStatus(message: string, expiry: int)
      modifies this
      ensures State() == old(State()).(statusMessage := message, statusExpiry := expiry)
    {
      statusMessage := message;
      statusExpiry := expiry;
    }

    /** rebuildTable */
    method RebuildTable()
      modifies this
      ensures State() == Rebuilt(old(State()))
    {
      var hostsToDisplay := filteredHosts;
      if sortColumn > 0 {
        hostsToDisplay := SortHosts(hostsToDisplay, sortColumn, sortAscending);
      }
      columns := ColumnTitles(sortColumn, sortAscending);
      rows := BuildRows(hostsToDisplay);
    }

    method HandleHelpKeys(key: Key) returns (cmd: Cmd)
      modifies this
      ensures Outcome(State(), cmd, None) == HelpKeys(old(State()), key)
    {
      if key == Esc || key == Rune('q') || key == Rune('?') {
        mode := Normal;
        tableFocused := true;
      }
      cmd := NoCmd;
    }

    /** Applies a query to all hosts and rebuilds the table. */
    method ApplyQuery(query: string)
      modifies this
      ensures State() == Rebuilt(old(State()).(listing := Queried(old(ListingState()), query)))
    {
      searchQuery := query;
      searchActive := query != "";
      if searchActive {
        filteredHosts := FilterHosts(allHosts, query);
      } else {
        filteredHosts := allHosts;
      }
      assert State() == old(State()).(listing := Queried(old(ListingState()), query));
      RebuildTable();
    }

    /** The enter branch of handleSearchKeys. */
    method ApplySearch(env: Env) returns (cmd: Cmd)
      modifies this
      ensures Outcome(State(), cmd, None) == SearchApply(old(State()), env)
    {
      ApplyQuery(searchInput);
      mode := Normal;
      searchFocused := false;
      tableFocused := true;
      SetStatus("Found " + Itoa(|filteredHosts|) + " host(s)", env.now + ShortStatusMs);
      cmd := ClearStatusAfter(ShortStatusMs);
    }

    method HandleSearchKeys(key: Key, env: Env) returns (cmd: Cmd)
      modifies this
      ensures Outcome(State(), cmd, None) == SearchKeys(old(State()), key, env)
    {
      if key == Esc {
        mode := Normal;
        searchInput := "";
        searchFocused := false;
        tableFocused := true;
        cmd := NoCmd;
      } else if key == Enter {
        cmd := ApplySearch(env);
      } else {
        searchInput := env.edited;
        cmd := Delegated;
      }
    }

    method HandleSshPromptKeys(key: Key, env: Env) returns (cmd: Cmd)
      modifies this
      ensures Outcome(State(), cmd, None) == SshPromptKeys(old(State()), key, env)
    {
      if key == Esc {
        mode := Normal;
        usernameInput := "";
        tableFocused := true;
        cmd := NoCmd;
      } else if key == Enter {
        var username := usernameInput;
        if username == "" {
          return NoCmd;
        }
        usernameInput := "";
        cmd := Exec(["ssh", username + "@" + selectedIP]);
      } else {
        usernameInput := env.edited;
        cmd := Delegated;
      }
    }

    /** The "1".."4" branch of handleNormalKeys. */
    method SortByColumn(col: int)
      modifies this
      ensures Outcome(State(), NoCmd, None) == SortKey(old(State()), col)
    {
      if sortColumn == col {
        sortAscending := !sortAscending;
      } else {
        sortColumn := col;
        sortAscending := true;
      }
      assert State() == old(State()).(listing := Resorted(old(ListingState()), col));
      RebuildTable();
    }

    /** The y, m, h and a branches of handleNormalKeys. */
    method CopyField(key: Key, env: Env) returns (cmd: Cmd, copied: Option<string>)
      modifies this
      ensures Outcome(State(), cmd, copied) == CopyKey(old(State()), key, env)
    {
      var row := env.selectedRow;
      if |row| >= CopyMinCells(key) && row[1] != NoHostsText {
        var text := CopyText(key, row);
        copied := Some(text);
        if env.clipboardOk {
          statusMessage := CopyStatus(key);
          statusExpiry := env.now + ShortStatusMs;
          return ClearStatusAfter(ShortStatusMs), copied;
        }
        return Delegated, copied;
      }
      return Delegated, None;
    }

    /** The ? branch of handleNormalKeys. */
    method OpenHelp() returns (cmd: Cmd)
      modifies this
      ensures Outcome(State(), cmd, None) == HelpKey(old(State()))
    {
      mode := Help;
      tableFocused := false;
      cmd := NoCmd;
    }

    /** The / branch of handleNormalKeys. */
    method OpenSearch() returns (cmd: Cmd)
      modifies this
      ensures Outcome(State(), cmd, None) == SearchKey(old(State()))
    {
      mode := Search;
      searchFocused := true;
      tableFocused := false;
      cmd := NoCmd;
    }

    /** The esc branch of handleNormalKeys. */
    method ToggleTableFocus() returns (cmd: Cmd)
      modifies this
      ensures Outcome(State(), cmd, None) == FocusKey(old(State()))
    {
      if tableFocused {
        tableFocused := false;
      } else {
        tableFocused := true;
      }
      cmd := Delegated;
    }

    /** The r branch of handleNormalKeys. */
    method StartRescan() returns (cmd: Cmd)
      modifies this
      ensures Outcome(State(), cmd, None) == RescanKey(old(State()))
    {
      if isScanning {
        return NoCmd;
      }
      isScanning := true;
      cmd := Rescan(cidr);
    }

    /** The s branch of handleNormalKeys. */
    method OpenSshPrompt(env: Env) returns (cmd: Cmd)
      modifies this
      ensures Outcome(State(), cmd, None) == SshKey(old(State()), env)
    {
      var row := env.selectedRow;
      if |row| > 1 && row[1] != NoHostsText {
        selectedIP := row[1];
        mode := SshPrompt;
        tableFocused := false;
        usernameFocused := true;
        return NoCmd;
      }
      cmd := Delegated;
    }

    method HandleNormalKeys(key: Key, env: Env) returns (cmd: Cmd, copied: Option<string>)
      modifies this
      ensures Outcome(State(), cmd, copied) == NormalKeys(old(State()), key, env)
    {
      copied := None;
      if key == Rune('?') {
        cmd := OpenHelp();
      } else if key == Rune('/') {
        cmd := OpenSearch();
      } else if key == Esc {
        cmd := ToggleTableFocus();
      } else if key == Rune('q') || key == CtrlC {
        cmd := Quit;
      } else if IsSortKey(key) {
        SortByColumn(SortKeyColumn(key));
        cmd := NoCmd;
      } else if key == Rune('r') {
        cmd := StartRescan();
      } else if IsCopyKey(key) {
        cmd, copied := CopyField(key, env);
      } else if key == Rune('s') {
        cmd := OpenSshPrompt(env);
      } else {
        cmd := Delegated;
      }
    }

    /** Stores a new scan result, re-runs the applied query on it and rebuilds the table. */
    method Refresh(hosts: seq<HostInfo>)
      modifies this
      ensures State() == Rebuilt(old(State()).(listing := Refreshed(old(ListingState()), hosts)))
    {
      allHosts := hosts;
      if searchActive {
        filteredHosts := FilterHosts(allHosts, searchQuery);
      } else {
        filteredHosts := allHosts;
      }
      assert State() == old(State()).(listing := Refreshed(old(ListingState()), hosts));
      RebuildTable();
    }

    /** The rescanCompleteMsg branch of Update. */
    method ApplyRescan(hosts: seq<HostInfo>, env: Env) returns (cmd: Cmd)
      modifies this
      ensures Outcome(State(), cmd, None) == OnRescanComplete(old(State()), hosts, env.now)
    {
      isScanning := false;
      Refresh(hosts);
      SetStatus("Rescan complete: " + Itoa(|hosts|) + " host(s) found", env.now + RescanStatusMs);
      cmd := ClearStatusAfter(RescanStatusMs);
    }

    /** The KeyMsg branch of Update. */
    method HandleKey(key: Key, env: Env) returns (cmd: Cmd, copied: Option<string>)
      modifies this
      ensures Outcome(State(), cmd, copied) == KeyOutcome(old(State()), key, env)
    {
      copied := None;
      if isScanning {
        return NoCmd, None;
      }
      match mode {
        case Help => cmd := HandleHelpKeys(key);
        case Search => cmd := HandleSearchKeys(key, env);
        case SshPrompt => cmd := HandleSshPromptKeys(key, env);
        case Normal => cmd, copied := HandleNormalKeys(key, env);
      }
    }

    /** The rescanErrorMsg branch of Update. */
    method ReportRescanError(err: string, env: Env) returns (cmd: Cmd)
      modifies this
      ensures Outcome(State(), cmd, None) == OnRescanError(old(State()), err, env.now)
    {
      isScanning := false;
      SetStatus("Rescan failed: " + err, env.now + ErrorStatusMs);
      cmd := ClearStatusAfter(ErrorStatusMs);
    }

    /** Update: dispatch on the message, then on the mode; keeps the invariant. */
    method Update(msg: Msg, env: Env) returns (cmd: Cmd, copied: Option<string>)
      requires Valid()
      modifies this
      ensures Outcome(State(), cmd, copied) == Step(old(State()), msg, env)
      ensures Valid()
    {
      ghost var before := State();
      copied := None;
      match msg {
        case ClearStatus =>
          statusMessage := "";
          cmd := NoCmd;
        case RescanComplete(hosts) =>
          cmd := ApplyRescan(hosts, env);
        case RescanError(err) =>
          cmd := ReportRescanError(err, env);
        case KeyPress(key) =>
          cmd, copied := HandleKey(key, env);
        case OtherMsg =>
          cmd := Delegated;
      }
      StepInv(before, msg, env);
    }
  }
}
