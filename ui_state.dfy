// The fields of the dashboard's UIModel, as one value. The struct itself
// is reconstructed from its uses in internal/ui/update.go and
// internal/ui/view.go; widget internals (cursor, widths, styles) are not
// part of it. The fields are grouped: what the host list is and how it is
// filtered and sorted (Listing), what the table widget holds (Grid), and
// the rest of the screen's state.

module UiState {
  import opened Hosts
  import opened Helpers

  datatype Mode = Normal | Help | Search | SshPrompt

  /** The host list and the filter and sort applied to it. */
  datatype Listing = Listing(
    allHosts: seq<HostInfo>,    // the latest scan result
    filteredHosts: seq<HostInfo>,
    searchQuery: string,        // the applied query
    searchActive: bool,
    sortColumn: int,            // 0 = scan order, 1 = IP, 2 = MAC, 3 = Vendor, 4 = Hostname
    sortAscending: bool)

  /** The table widget's contents. */
  datatype Grid = Grid(
    columns: seq<string>,       // the column titles
    rows: seq<Row>)

  datatype Session = Session(
    mode: Mode,
    isScanning: bool,
    cidr: string,               // the network the rescan key scans
    listing: Listing,
    grid: Grid,
    tableFocused: bool,
    searchInput: string,        // the text in the search box
    searchFocused: bool,
    usernameInput: string,      // the text in the ssh username box
    usernameFocused: bool,
    statusMessage: string,
    statusExpiry: int,          // milliseconds on the runtime's clock
    selectedIP: string)         // target of the ssh prompt
}
