# nls dashboard: a verified model

nls finds the hosts on a local network with an nmap ping scan and shows them
in a terminal dashboard. The dashboard is a Bubbletea program. It lists every
host's id, IP, MAC, vendor and hostname. The user can:

- filter the list with a case-insensitive search;
- sort it by any column, with a second press reversing the order;
- copy fields of the selected row to the clipboard;
- rescan the network in the background;
- open an ssh session to the selected host.

This project models the core of that program in Dafny and proves properties of the model:

- `hosts.dfy` (module `Hosts`): the host record, and the `"none"` sentinel written into every field the scanner did not report.
- `go_strings.dfy` (modules `Maybe` and `GoStrings`): the pieces of Go's `strings` and `strconv` packages the core calls.
- `helpers.dfy` (module `Helpers`):
  - `buildRows`;
  - the column titles and sort indicators of `buildColumns`;
  - `filterHosts`;
  - `compareIPs`;
  - `sortHosts`. Go's `sort.Slice` is modelled as the insertion sort it runs on short slices, over an array.
- `tea.dfy`, `ui_state.dfy` (modules `Tea` and `UiState`): the messages, keys and commands that Bubbletea exchanges with the model, and the dashboard's state as a value.
- `dashboard.dfy` (module `Dashboard`): `UIModel.Update` and its key handlers.
  - Each handler is specified as a function from the old state to an `Outcome`.
  - Class `UIModel` carries the fields and implements each handler as a method that updates them in place.
  - Each method is proved equal to its specification function.
  - The specification functions are proved to keep the invariant `Inv`, and to do what each key promises.
- `views.dfy` (module `Views`): `View`, which picks one screen per mode, and the footer composed by `renderNormalView`.
- `scanner.dfy` (module `Scanner`):
  - `extractHostInfo`;
  - `NewNmapScanner`;
  - the calls that `NmapScanner.Scan` and the older `Scan` make on their progress reporter while polling for the result, and what each exit returns.
- `legacy_ui.dfy` (module `LegacyUi`): the earlier single-prompt `UIModel` of `internal/ui/ui.go`.

The following things the model cannot compute become explicit inputs:

- the clock (`now`, in milliseconds);
- whether the clipboard write succeeded;
- the row the table widget has selected;
- the text an input widget holds after a key;
- the widgets' renderings.

## Model

| member | source | states |
|---|---|---|
| GoStrings.Lower | internal/ui/helpers.go:118-125 | strings.ToLower keeps the length of its argument (ASCII letters only). |
| GoStrings.LowerIdempotent | internal/ui/helpers.go:118-125 | Lowering twice is lowering once, so filtering on an already-lowered query is consistent. |
| GoStrings.LessIrreflexive | internal/ui/helpers.go:150-154 | `strings.Compare(a, a) < 0` never holds. |
| GoStrings.LessAsymmetric | internal/ui/helpers.go:150-154 | `strings.Compare(a, b) < 0` and `strings.Compare(b, a) < 0` never both hold. |
| GoStrings.LessTransitive | internal/ui/helpers.go:150-154 | Byte-wise string order is transitive. |
| GoStrings.LessTotal | internal/ui/helpers.go:150-154 | Any two strings are equal or ordered one way. |
| GoStrings.NotLessTransitive | internal/ui/helpers.go:159-162 | The non-strict order `!less` used for descending sorts is transitive. |
| GoStrings.Split | internal/ui/helpers.go:183-184 | strings.Split always yields at least one part. |
| GoStrings.SplitJoin | internal/ui/helpers.go:183-184 | Joining the parts with the separator gives back the input, and no part contains the separator. |
| GoStrings.SplitWithoutSep | internal/ui/helpers.go:183-184 | A string without the separator splits into itself alone. |
| GoStrings.SplitAtFirst | internal/ui/helpers.go:183-184 | Splitting at the first separator peels off the first part. |
| GoStrings.Atoi | internal/ui/helpers.go:188-189 | strconv.Atoi fails on the empty string and succeeds only inside Go's 64-bit int range. |
| GoStrings.Itoa | internal/ui/helpers.go:101 | strconv.Itoa never yields the empty string. |
| GoStrings.NatDigitsValue | internal/ui/helpers.go:101 | The decimal digits of n are all digits and read back as n. |
| GoStrings.ItoaRoundTrip | internal/ui/helpers.go:101 | `Atoi(Itoa(n)) == n` for every Go int. |
| Helpers.BuildRows | internal/ui/helpers.go:93-109 | The loop builds the rows of `TableRows`: the single placeholder row for no hosts, otherwise one row per host in order. |
| Helpers.TableRowsRoundTrip | internal/ui/helpers.go:93-109 | An empty list shows only the placeholder, which parses as no host. Otherwise there is one row per host, and row i parses back to host i. |
| Helpers.IdCellRoundTrip | internal/ui/helpers.go:101 | The id cell reads back as the host's id. |
| Helpers.RowIsNeverPlaceholder | internal/ui/helpers.go:93-109 | No host's row equals the placeholder row as a whole. Its IP cell shows the placeholder's text exactly when the host's IP is that text, so the handlers' IP-cell check rejects exactly those hosts. |
| Helpers.ColumnTitles | internal/ui/helpers.go:72-88 | buildColumns yields five titles. |
| Helpers.IndicatorShape | internal/ui/helpers.go:72-80 | addSortIndicator appends " ↑" (ascending) or " ↓" (descending) exactly when the column is the sort column, and otherwise returns the title unchanged. |
| Helpers.IndicatorOnlyOnSortColumn | internal/ui/helpers.go:82-88 | Title k carries an indicator iff k is the sort column and not Id. It is then the base title plus the arrow for the direction; otherwise it is the base title. |
| Helpers.FilterHosts | internal/ui/helpers.go:113-131 | An empty query returns the input itself. Otherwise the loop keeps, in order, the hosts that `Filter` keeps. |
| Helpers.FilteredMembers | internal/ui/helpers.go:121-128 | A host is in the filtered list iff it is in the input and one of its four fields, lowercased, contains the query. |
| Helpers.FilteredAppend | internal/ui/helpers.go:121-128 | Filtering distributes over concatenation, so input order is kept. |
| Helpers.FilteredShorter | internal/ui/helpers.go:113-131 | The filtered list is never longer than the input. |
| Helpers.FilteredIdempotent | internal/ui/helpers.go:121-128 | Filtering the filtered list again changes nothing. |
| Helpers.FilterIdempotent | internal/ui/helpers.go:113-131 | filterHosts is idempotent for a fixed query, and never lengthens its input. |
| Helpers.FilterKeepsExactlyMatches | internal/ui/helpers.go:118-128 | For a non-empty query, a host survives iff some field contains the lowercased query, after lowercasing that field. |
| Helpers.CompareIPs | internal/ui/helpers.go:170-203 | The loop computes `IpLess`. `"none"` is never less, and every other address is less than `"none"`. |
| Helpers.IpLessIrreflexive | internal/ui/helpers.go:170-203 | No address is less than itself. |
| Helpers.IpLessAsymmetric | internal/ui/helpers.go:170-203 | No two addresses are each less than the other. |
| Helpers.IpLessSentinelLast | internal/ui/helpers.go:171-180 | `"none"` sorts after every other address. |
| Helpers.Octets | internal/ui/helpers.go:183-189 | A numeric dotted quad has four octet values. |
| Helpers.QuadNotSentinel | internal/ui/helpers.go:171-180 | A numeric dotted quad is never the `"none"` sentinel. |
| Helpers.OctetsLessIsLex | internal/ui/helpers.go:186-199 | From any position on, the octet loop over two numeric quads is the lexicographic order of the remaining octet values. |
| Helpers.IpLessNumericOctets | internal/ui/helpers.go:186-199 | For any two numeric dotted quads, compareIPs holds iff their octet values are lexicographically less: the first differing octet decides, compared as numbers. |
| Helpers.LexNotLessTransitive | internal/ui/helpers.go:186-199 | On equally long octet sequences, "not after" is transitive. |
| Helpers.LexTied | internal/ui/helpers.go:186-199 | Two equally long octet sequences neither of which is before the other are equal. |
| Helpers.IpNotLessTransitive | internal/ui/helpers.go:170-203 | On `"none"` and numeric dotted quads, "not after" under compareIPs is transitive. |
| Helpers.IpLessTransitive | internal/ui/helpers.go:170-203 | On `"none"` and numeric dotted quads, compareIPs is transitive. |
| Helpers.IpLessCycle | internal/ui/helpers.go:186-199 | The string fallback makes the order cyclic: 9.0.0.1 < 10.0.0.1 < 2001:db8::1 < 9.0.0.1. |
| Helpers.KeyLessAsymmetric | internal/ui/helpers.go:146-157 | Each column's comparator is asymmetric. |
| Helpers.SortLessAt | internal/ui/helpers.go:144-163 | The less-function passed to sort.Slice: the column comparator, negated with `!` when descending. |
| Helpers.Insert | internal/ui/helpers.go:144 | One insertion step lengthens the list by one. |
| Helpers.InsertPermutes | internal/ui/helpers.go:144 | An insertion step adds exactly the inserted host. |
| Helpers.InsertKeepsOrder | internal/ui/helpers.go:144 | An insertion step keeps every adjacent pair in order under the less-function. |
| Helpers.InsertionSortedPermutes | internal/ui/helpers.go:144-163 | The sorted copy is a permutation of the input, and every adjacent pair is in order. |
| Helpers.SortedHostsProperties | internal/ui/helpers.go:135-166 | sortHosts returns a permutation of its input, in order at every adjacent pair. For column 0 or an empty list it returns the input itself. |
| Helpers.InsertLast | internal/ui/helpers.go:144 | The in-place insertion of `a[i]` into the sorted prefix leaves `Insert` of that prefix followed by the untouched suffix. |
| Helpers.InsertionSort | internal/ui/helpers.go:144-163 | Sorting the array in place leaves `InsertionSorted` of its old contents. |
| Helpers.SortHosts | internal/ui/helpers.go:135-166 | Copies the input into a fresh array, sorts the copy and returns `SortedHosts`; the input is untouched. |
| Helpers.OrderedTransitive | internal/ui/helpers.go:146-162 | The sort order is transitive, in both directions, for the MAC, Vendor and Hostname columns, and for the IP column over `"none"` and numeric dotted quads. |
| Helpers.OrderedBothWays | internal/ui/helpers.go:149-162 | For the string columns, two hosts ordered both ways have equal keys. |
| Helpers.AdjacentToSorted | internal/ui/helpers.go:146-162 | Wherever the comparator is a strict weak order (the string columns; the IP column over `"none"` and numeric quads), adjacent order implies order at every pair. |
| Helpers.SortedHostsSorted | internal/ui/helpers.go:135-166 | On the same domain, sortHosts' result is in order at every pair. |
| Helpers.SortedAscendingKeys | internal/ui/helpers.go:149-159 | An ascending MAC, Vendor or Hostname sort is non-decreasing in byte-wise order. |
| Helpers.SortedDescendingKeys | internal/ui/helpers.go:149-162 | A descending MAC, Vendor or Hostname sort is non-increasing in byte-wise order. |
| Helpers.SortedIpOctets | internal/ui/helpers.go:147-160 | An ascending IP sort over `"none"` and numeric quads has non-decreasing octet values, and every `"none"` after all quads. |
| Helpers.TiedStrings | internal/ui/helpers.go:149-154 | For the string columns, two hosts tie under the comparator iff their keys are equal. |
| Helpers.TiedQuads | internal/ui/helpers.go:147-148 | For the IP column over numeric quads, two hosts tie iff their octet values are equal. |
| Helpers.Reverse | internal/ui/helpers.go:159-162 | Reversal keeps the length. |
| Helpers.ReverseMultiset | internal/ui/helpers.go:159-162 | Reversal keeps the elements. |
| Helpers.SortedUnique | internal/ui/helpers.go:144-163 | When no two hosts tie, two sorted permutations of the same hosts are equal. |
| Helpers.DescendingReversesAscending | internal/ui/helpers.go:159-162 | When no two hosts tie, the descending sort is the reverse of the ascending one. This holds for the string columns, and for the IP column when every address is `"none"` or a numeric dotted quad. |
| Dashboard.RefreshedOk | internal/ui/update.go:70-78 | New scan results keep the listing consistent, and are re-filtered with the current query. |
| Dashboard.QueriedOk | internal/ui/update.go:146-155 | Applying a query keeps the listing consistent; the filtered hosts are `filterHosts(allHosts, query)`. |
| Dashboard.ResortedOk | internal/ui/update.go:234-242 | A sort key selects its column. Direction is ascending for a new column, and toggled for the same column. |
| Dashboard.ResortedTwice | internal/ui/update.go:235-237 | Pressing the current column's key twice restores the listing. |
| Dashboard.ShownRows | internal/ui/update.go:331-351 | rebuildTable shows a permutation of the filtered hosts: scan order for column 0, otherwise in order under the column's comparator. It has five titles, and one row per shown host or the single placeholder. |
| Dashboard.SortKeyColumn | internal/ui/update.go:234 | The digit keys select columns 1 to 4. |
| Dashboard.InitialInv | internal/ui/model.go:41-70 | The initial state satisfies the invariant and shows every scanned host. |
| Dashboard.NormalKeysInv | internal/ui/update.go:207-328 | Every key in the table view keeps the invariant. |
| Dashboard.SearchKeysInv | internal/ui/update.go:134-176 | Every key in the search prompt keeps the invariant. |
| Dashboard.StepInv | internal/ui/update.go:60-120 | Every message keeps the invariant. |
| Dashboard.ClearStatusOnlyClears | internal/ui/update.go:64-66 | The clearing tick empties the status message and changes nothing else. |
| Dashboard.KeysIgnoredWhileScanning | internal/ui/update.go:100-103 | While a rescan runs, every key is ignored. |
| Dashboard.RescanCompleteFacts | internal/ui/update.go:68-88 | A completed rescan stops scanning, stores the hosts and re-filters them with the current query. It reports the host count for three seconds. |
| Dashboard.RescanErrorKeepsHosts | internal/ui/update.go:90-97 | A failed rescan stops scanning, keeps the hosts and the table, and reports the error for five seconds. |
| Dashboard.SortKeyNewColumn | internal/ui/update.go:238-242 | A digit key for a new column sorts by it ascending. |
| Dashboard.SortKeyTwiceRestores | internal/ui/update.go:235-244 | The current column's key reverses the direction, and pressing it again restores the whole state. |
| Dashboard.SearchEscKeepsFilter | internal/ui/update.go:136-142 | Esc in the search prompt returns to the table with an empty input. The applied filter and the table are kept. |
| Dashboard.SearchEnterApplies | internal/ui/update.go:144-169 | Enter applies the typed query, filtering all hosts with it. It returns to the table and reports the match count for two seconds. |
| Dashboard.HelpClosesOnlyOnItsKeys | internal/ui/update.go:123-131 | The help screen closes exactly on esc, q or ?; every other key leaves the state unchanged. |
| Dashboard.NormalModeTransitions | internal/ui/update.go:209-220 | ? opens help and / opens search, each blurring the table. |
| Dashboard.SshPromptFacts | internal/ui/update.go:179-204 | Esc closes the prompt and clears the username. Enter with no username does nothing. Otherwise Enter clears the username and runs ssh to user@address. |
| Dashboard.PlaceholderRowInert | internal/ui/update.go:255-327 | On the placeholder row, s and the copy keys only reach the table widget. |
| Dashboard.CopyKeyFacts | internal/ui/update.go:255-311 | A copy key hands its field to the clipboard. On success it shows that field's message for two seconds; on failure the key goes to the table. |
| Dashboard.CopyAllJoinsByTabs | internal/ui/update.go:300-303 | "a" copies IP, MAC, vendor and hostname joined by tabs. |
| Dashboard.RescanAndSshKeys | internal/ui/update.go:246-253 | r starts a rescan of the configured CIDR. s on a real row opens the ssh prompt for its address. |
| Dashboard.UIModel.constructor | internal/ui/model.go:41-70 | Builds the initial state, which satisfies the invariant. |
| Dashboard.UIModel.SetStatus | internal/ui/update.go:84-85 | Sets the status message and its expiry, and nothing else. |
| Dashboard.UIModel.RebuildTable | internal/ui/update.go:331-351 | Replaces the columns and rows with those computed from the listing, and changes nothing else. |
| Dashboard.UIModel.HandleHelpKeys | internal/ui/update.go:123-131 | Matches `HelpKeys`. |
| Dashboard.UIModel.ApplyQuery | internal/ui/update.go:146-158 | Stores the query, re-filters and rebuilds the table. |
| Dashboard.UIModel.ApplySearch | internal/ui/update.go:144-169 | Matches `SearchApply`. |
| Dashboard.UIModel.HandleSearchKeys | internal/ui/update.go:134-176 | Matches `SearchKeys`. |
| Dashboard.UIModel.HandleSshPromptKeys | internal/ui/update.go:179-204 | Matches `SshPromptKeys`. |
| Dashboard.UIModel.SortByColumn | internal/ui/update.go:232-244 | Matches `SortKey`. |
| Dashboard.UIModel.CopyField | internal/ui/update.go:255-311 | Matches `CopyKey`. |
| Dashboard.UIModel.OpenHelp | internal/ui/update.go:209-213 | Matches `HelpKey`. |
| Dashboard.UIModel.OpenSearch | internal/ui/update.go:215-220 | Matches `SearchKey`. |
| Dashboard.UIModel.ToggleTableFocus | internal/ui/update.go:222-227 | Matches `FocusKey`. |
| Dashboard.UIModel.StartRescan | internal/ui/update.go:246-253 | Matches `RescanKey`. |
| Dashboard.UIModel.OpenSshPrompt | internal/ui/update.go:313-327 | Matches `SshKey`. |
| Dashboard.UIModel.HandleNormalKeys | internal/ui/update.go:207-328 | Matches `NormalKeys`. |
| Dashboard.UIModel.Refresh | internal/ui/update.go:70-81 | Stores the new hosts, re-filters them and rebuilds the table. |
| Dashboard.UIModel.ApplyRescan | internal/ui/update.go:68-88 | Matches `OnRescanComplete`. |
| Dashboard.UIModel.HandleKey | internal/ui/update.go:99-115 | Matches `KeyOutcome`. |
| Dashboard.UIModel.ReportRescanError | internal/ui/update.go:90-97 | Matches `OnRescanError`. |
| Dashboard.UIModel.Update | internal/ui/update.go:60-120 | Leaves the state, command and clipboard text of `Step`, and keeps `Valid`. |
| Views.FooterEndsWithShortcuts | internal/ui/view.go:86-101 | The footer always ends with the full list of shortcuts. |
| Views.CharBeforeShortcuts | internal/ui/view.go:88-101 | The character two places before the shortcuts is the scanning indicator's last dot while scanning, and otherwise is not a dot. |
| Views.ScanningIndicatorIff | internal/ui/view.go:88-91 | The scanning indicator stands just before the shortcuts iff a rescan runs. |
| Views.FilterShown | internal/ui/view.go:86-100 | The footer carries "[Filter: q] " exactly while a filter is applied: then it stands after the status and before the scanning part and the shortcuts; otherwise there is no filter part between them. |
| Views.StatusShown | internal/ui/view.go:98-101 | A non-empty, unexpired status message leads the footer, followed by two spaces. |
| Views.StatusHidden | internal/ui/view.go:98-101 | An empty or expired status leaves the footer as if there were none. |
| Views.ClearedStatusGone | internal/ui/view.go:98-101 | After the clearing tick the footer shows no status. |
| Views.RescanKeyFooter | internal/ui/view.go:88-91 | After r, the footer shows the scanning indicator. |
| Views.RescanCompleteFooter | internal/ui/view.go:88-101 | After a completed rescan, the footer drops the scanning indicator and leads with the host count. |
| Views.ScreenPerMode | internal/ui/view.go:13-108 | Each mode has its own screen. The ssh prompt starts with "SSH to" and the selected address, which is never the placeholder. The search prompt has its title. The table view ends with a newline and the footer. |
| Scanner.ExtractHostInfo | internal/scanner/nmap.go:92-120 | The loop yields `Extracted(report)`: one record per reported host, in order. |
| Scanner.ExtractedFields | internal/scanner/nmap.go:93-118 | Record i has id i. IP comes from the first address, MAC and vendor from the second, hostname from the first hostname; each missing field holds "none". |
| Scanner.LaterEntriesIgnored | internal/scanner/nmap.go:100-109 | Addresses after the second and hostnames after the first do not affect the record. |
| Scanner.ExtractedAppend | internal/scanner/scanner.go:76-104 | Translating a concatenation gives the two translations, the second renumbered after the first: order kept, nothing merged or dropped. |
| Scanner.NewNmapScanner | internal/scanner/nmap.go:23-31 | A supplied reporter is kept, and a missing one becomes the no-op reporter. |
| Scanner.IdleCount | internal/scanner/nmap.go:70-85 | The number of idle passes before the first pass that finds something. |
| Scanner.PollLoop | internal/scanner/nmap.go:70-85 | Each idle pass makes one tick call. The first pass that finds something makes one Finish and returns that pass's result. |
| Scanner.Scan | internal/scanner/nmap.go:41-86 | Start once, then Update once per idle pass, then Finish once, all on the scanner's own reporter. It returns the translated report, the backend's error, or the context's error. |
| Scanner.LegacyScan | internal/scanner/scanner.go:21-70 | The bar advances by one per idle pass and finishes once. It returns as `Scan` does. |
| Scanner.ScanDiscipline | internal/scanner/nmap.go:42-85 | Start comes first and Finish last, with only Updates between them. Hosts are returned only when a report arrived; each other exit fails with its own error. |
| Scanner.LaterPollsIrrelevant | internal/scanner/nmap.go:70-85 | Passes after the first that finds something never happen. |
| Scanner.IdleCountFirst | internal/scanner/nmap.go:70-85 | The idle count is the first index that finds something. |
| LegacyUi.LegacyTitlesUnsorted | internal/ui/ui.go:93-99 | The old titles are Id, IP, MAC, Vendor, Hostname, the new dashboard's titles with no sort column. |
| LegacyUi.LegacyInitialInv | internal/ui/ui.go:137-176 | The initial state has no prompt and a focused table showing the hosts' rows. |
| LegacyUi.LegacyStepInv | internal/ui/ui.go:180-231 | Every update keeps the table blurred under the prompt and the placeholder out of the prompt, and never changes the rows. |
| LegacyUi.SshKeyOpensPrompt | internal/ui/ui.go:218-226 | s opens the prompt for the selected address iff the row is a real host; on the placeholder the key goes to the table. |
| LegacyUi.QuitOnlyOutsidePrompt | internal/ui/ui.go:184-217 | Under the prompt, q and ctrl+c are typed into the username. Outside it they quit. |
| LegacyUi.PromptExits | internal/ui/ui.go:186-202 | Enter with no username does nothing. Otherwise Enter closes the prompt, clears the username and runs ssh. Esc closes it and refocuses the table. |
| LegacyUi.EscTogglesFocus | internal/ui/ui.go:210-215 | Esc over the table toggles its focus, and twice restores the state. |
| LegacyUi.LegacyViewShape | internal/ui/ui.go:235-266 | The view is the "SSH to" prompt while it is open, and otherwise the table followed by the footer. |
| LegacyUi.LegacyModel.constructor | internal/ui/ui.go:137-176 | Builds the initial state, which satisfies the invariant. |
| LegacyUi.LegacyModel.Update | internal/ui/ui.go:180-231 | Leaves the state and command of `LegacyStep`, and keeps `Valid`. |

## Left out

- Column widths. `buildColumns` computes them from the terminal size with float64 weights truncated to int. `getTerminalSize` reads the OS and the environment. Only the titles are modelled.
- Styles, lipgloss placement, `helpText` and the widgets' own behaviour: cursor movement, text editing, rendering. Their results are inputs. A key a widget handles is reported as the `Delegated` command.
- Side effects. The model records them instead of performing them:
  - `clipboard.WriteAll` is an input (did it succeed) plus an output (the text handed to it);
  - `exec.Command` and `tea.ExecProcess` become `Exec(args)`;
  - `tea.Tick` becomes `ClearStatusAfter(ms)`;
  - `tea.Quit` becomes `Quit`;
  - `doRescan` becomes `Rescan(cidr)`; the scan it runs is `Scanner.Scan`, and its result returns as the `RescanComplete` or `RescanError` message.
- Concurrency and timing in `Scan`: the goroutine, the channels, `select`, `time.Sleep` and the context timeout. Each pass of the polling loop is given as a `Poll`. A run is required to end with a pass that finds something; with no such pass the loop in the source never returns.
- The nmap library call itself (`nmap.NewScanner`, `Run`), and the warnings it logs.
- Go's `select` picks at random among ready channels; the given `Poll` sequence fixes that choice.
- `UIModel.Init` returns nil. Its tests expect a command, but the code returns nil.
- Tests in `helpers_test.go` and `filter_sort_test.go` expect four-column rows. The code builds five, and the model follows the code.
- The three-argument `NewUIModel` that builds the current `UIModel` is not part of this model; `model.go` builds the older struct. The initial state is reconstructed: normal mode, no sort column, descending flag false, table and username input focused, empty inputs.
- GoStrings.Lower: lowercases ASCII letters only, because strings.ToLower's Unicode case mapping is not modelled.
- Helpers.InsertionSort: sort.Slice is modelled as Go's insertion sort. The real sort uses it only for slices of at most twelve elements and pattern-defeating quicksort beyond. For more than twelve hosts only the permutation property carries over to Go's sort. For ascending sorts, order at every adjacent pair also carries over for the string columns, and for the IP column over `"none"` and numeric dotted quads: there the less-function is a strict weak order, and any correct sort orders every pair. For descending sorts the less-function is `!less`, which is reflexive, so sort.Slice's own notion of sorted does not apply when keys tie. For those, non-increasing adjacent order is proved only for the modelled insertion sort; whether pattern-defeating quicksort keeps it is not established here. On other IP columns the comparator is cyclic (`Helpers.IpLessCycle`), so adjacent order there is a property of this model's insertion sort, not of Go's sort. The exact order of tied hosts holds only up to twelve hosts.
- Helpers.SortedHostsProperties: full sortedness (`Helpers.SortedHostsSorted`) is proved for the string columns, and for the IP column when every address is `"none"` or a numeric dotted quad. Beyond that domain the string fallback makes the comparator cyclic (`Helpers.IpLessCycle`), so only adjacent order is claimed. `Helpers.DescendingReversesAscending` carries the same restriction.
- Helpers.RowIsNeverPlaceholder: the handlers for s, y, m, h and a test only the IP cell against "No hosts found" (update.go:258-316). A real host whose IP field is that text is treated as the placeholder, as in the source; the model keeps this behaviour.
- Stability of the sort is not claimed. sort.Slice is not stable, and the descending comparator `!less` is not strict.
- `internal/app`, `internal/progress` (beyond the reporter's calls), `cmd/nls` and the root-level prototype files are not part of this model.
- Dashboard.UIModel: the source's handlers take the model by value and return a copy; here they update one object in place. Nothing in the source keeps the old copy.
