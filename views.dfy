// What the dashboard draws (internal/ui/view.go): one screen per mode, and
// in Normal mode the table above a footer whose prefixes report the scan,
// the applied filter and the status message. Widget renderings (the table,
// the text inputs) and lipgloss styling and placement are inputs here.

module Views {
  import opened GoStrings
  import opened Hosts
  import opened Helpers
  import opened Tea
  import opened UiState
  import opened Dashboard

  /** The widgets' own renderings, which the model does not compute. */
  datatype Widgets = Widgets(table: string, searchInput: string, usernameInput: string)

  /** A screen: the help box, a centred prompt box, or the table view. */
  datatype Screen = HelpScreen | Prompt(text: string) | TableView(text: string)

  const BaseFooter: string := "[?: help] [/: search] [1-4: sort] [r: rescan] [y/m/h/a: copy] [s: ssh] [q: quit]"
  const ScanningIndicator: string := "\U{23F3} Scanning network... "

  function FilterIndicator(query: string): string
  {
    "[Filter: " + query + "] "
  }

  /** A status message shows while it is non-empty and the clock is before its expiry. */
  predicate StatusVisible(s: Session, now: int)
  {
    s.statusMessage != "" && now < s.statusExpiry
  }

  /** The scanning part: shown while a rescan runs. */
  function ScanPart(s: Session): string
  {
    if s.isScanning then ScanningIndicator else ""
  }

  /** The filter part: shown while a search filter is applied. */
  function FilterPart(s: Session): string
  {
    if s.listing.searchActive then FilterIndicator(s.listing.searchQuery) else ""
  }

  /** The status part: the message and two spaces, while it is visible. */
  function StatusPart(s: Session, now: int): string
  {
    if StatusVisible(s, now) then s.statusMessage + "  " else ""
  }

  /**
   * The footer: the shortcuts, prefixed first by the scanning indicator,
   * then by the filter, then by the status message.
   */
  function Footer(s: Session, now: int): string
  {
    StatusPart(s, now) + FilterPart(s) + ScanPart(s) + BaseFooter
  }

  /** renderNormalView */
  function NormalView(s: Session, w: Widgets, now: int): string
  {
    w.table + "\n" + Footer(s, now)
  }

  /** renderSearchView's prompt */
  function SearchPromptText(inputView: string): string
  {
    "Search/Filter Hosts\n\n" + inputView + "\n\n[enter: apply filter] [esc: cancel]"
  }

  /** renderSSHPromptView's prompt */
  function SshPromptText(ip: string, inputView: string): string
  {
    "SSH to " + ip + "\n\n" + inputView + "\n\n[enter: connect] [esc: cancel]"
  }

  /** View */
  function View(s: Session, w: Widgets, now: int): Screen
  {
    match s.mode
    case Help => HelpScreen
    case Search => Prompt(SearchPromptText(w.searchInput))
    case SshPrompt => Prompt(SshPromptText(s.selectedIP, w.usernameInput))
    case Normal => TableView(NormalView(s, w, now))
  }

  // ---------------------------------------------------------------------
  // Properties
  // ---------------------------------------------------------------------

  /** The footer always ends with the full list of shortcuts. */
  lemma FooterEndsWithShortcuts(s: Session, now: int)
    ensures HasSuffix(Footer(s, now), BaseFooter)
  {
    var head := StatusPart(s, now) + FilterPart(s) + ScanPart(s);
    assert (head + BaseFooter)[|head|..] == BaseFooter;
  }

  /** The character two places before the shortcuts: the indicator's last dot when scanning. */
  lemma CharBeforeShortcuts(s: Session, now: int)
    ensures var f := Footer(s, now);
      var k := |f| - |BaseFooter| - 2;
      && (s.isScanning ==> 0 <= k && f[k] == '.')
      && (!s.isScanning ==> k < 0 || f[k] == ']' || f[k] == ' ')
  {
    var f := Footer(s, now);
    var head := StatusPart(s, now) + FilterPart(s) + ScanPart(s);
    assert f == head + BaseFooter;
    var k := |f| - |BaseFooter| - 2;
    if k >= 0 {
      assert f[k] == head[|head| - 2];
      if s.isScanning {
        assert head[|head| - 2] == ScanningIndicator[|ScanningIndicator| - 2];
      } else if s.listing.searchActive {
        var fi := FilterIndicator(s.listing.searchQuery);
        assert head[|head| - 2] == fi[|fi| - 2];
      } else {
        assert head == StatusPart(s, now);
      }
    }
  }

  /** The footer shows the scanning indicator just before the shortcuts exactly while a scan runs. */
  lemma ScanningIndicatorIff(s: Session, now: int)
    ensures HasSuffix(Footer(s, now), ScanningIndicator + BaseFooter) <==> s.isScanning
  {
    var f := Footer(s, now);
    var tail := ScanningIndicator + BaseFooter;
    CharBeforeShortcuts(s, now);
    if s.isScanning {
      var head := StatusPart(s, now) + FilterPart(s);
      assert f == head + tail;
      assert f[|head|..] == tail;
    }
  }

  /**
   * The filter is named in the footer exactly while it is applied: then
   * its indicator stands after the status and before the scanning part;
   * otherwise the footer has no filter part at all.
   */
  lemma FilterShown(s: Session, now: int)
    ensures s.listing.searchActive ==> Contains(Footer(s, now), FilterIndicator(s.listing.searchQuery))
    ensures s.listing.searchActive ==>
      HasSuffix(Footer(s, now), FilterIndicator(s.listing.searchQuery) + ScanPart(s) + BaseFooter)
    ensures !s.listing.searchActive ==> Footer(s, now) == StatusPart(s, now) + ScanPart(s) + BaseFooter
  {
    if s.listing.searchActive {
      ContainsSecond(StatusPart(s, now), FilterPart(s), ScanPart(s), BaseFooter);
      SuffixAfterFirst(StatusPart(s, now), FilterPart(s), ScanPart(s), BaseFooter);
    } else {
      var status := StatusPart(s, now);
      assert status + FilterPart(s) == status;
    }
  }

  /** A visible status leads the footer. */
  lemma StatusShown(s: Session, now: int)
    requires StatusVisible(s, now)
    ensures HasPrefix(Footer(s, now), s.statusMessage + "  ")
  {
    var lead := StatusPart(s, now);
    var f := Footer(s, now);
    assert forall i | 0 <= i < |lead| :: f[i] == lead[i];
    assert f[..|lead|] == lead;
  }

  /** An expired or empty status leaves no trace in the footer. */
  lemma StatusHidden(s: Session, now: int)
    requires !StatusVisible(s, now)
    ensures Footer(s, now) == Footer(s.(statusMessage := ""), now)
  {
    var t := s.(statusMessage := "");
    assert StatusPart(s, now) == "" == StatusPart(t, now);
    assert FilterPart(s) == FilterPart(t) && ScanPart(s) == ScanPart(t);
  }

  /** Once the clearing tick has fired the footer carries no status, whatever the clock says. */
  lemma ClearedStatusGone(s: Session, env: Env, now: int)
    ensures Footer(Step(s, ClearStatus, env).next, now) == Footer(s.(statusMessage := ""), now)
  {
  }

  /** Pressing r in the table starts a rescan, and the footer shows the scanning indicator. */
  lemma RescanKeyFooter(s: Session, env: Env)
    requires !s.isScanning && s.mode == Normal
    ensures HasSuffix(Footer(Step(s, KeyPress(Rune('r')), env).next, env.now), ScanningIndicator + BaseFooter)
  {
    RescanAndSshKeys(s, env);
    ScanningIndicatorIff(s.(isScanning := true), env.now);
  }

  /**
   * A completed rescan removes the scanning indicator and, until it
   * expires, leads the footer with the number of hosts found.
   */
  lemma RescanCompleteFooter(s: Session, hosts: seq<HostInfo>, env: Env)
    ensures var done := Step(s, RescanComplete(hosts), env).next;
      && !HasSuffix(Footer(done, env.now), ScanningIndicator + BaseFooter)
      && HasPrefix(Footer(done, env.now), "Rescan complete: " + Itoa(|hosts|) + " host(s) found  ")
  {
    var done := OnRescanComplete(s, hosts, env.now).next;
    assert Step(s, RescanComplete(hosts), env).next == done;
    assert !done.isScanning && StatusVisible(done, env.now);
    ScanningIndicatorIff(done, env.now);
    StatusShown(done, env.now);
  }

  /** Each mode has its own screen; the ssh prompt names the selected address, never the placeholder. */
  lemma ScreenPerMode(s: Session, w: Widgets, now: int)
    requires Inv(s)
    ensures View(s, w, now).HelpScreen? <==> s.mode == Help
    ensures View(s, w, now).TableView? <==> s.mode == Normal
    ensures s.mode == SshPrompt ==>
      HasPrefix(View(s, w, now).text, "SSH to " + s.selectedIP + "\n\n") && s.selectedIP != NoHostsText
    ensures s.mode == Search ==> HasPrefix(View(s, w, now).text, "Search/Filter Hosts\n\n")
    ensures s.mode == Normal ==> HasSuffix(View(s, w, now).text, "\n" + Footer(s, now))
  {
    if s.mode == SshPrompt {
      var head := "SSH to " + s.selectedIP + "\n\n";
      assert SshPromptText(s.selectedIP, w.usernameInput) == head + (w.usernameInput + "\n\n[enter: connect] [esc: cancel]");
    } else if s.mode == Search {
      var head := "Search/Filter Hosts\n\n";
      assert SearchPromptText(w.searchInput) == head + (w.searchInput + "\n\n[enter: apply filter] [esc: cancel]");
    } else if s.mode == Normal {
      var tail := "\n" + Footer(s, now);
      assert NormalView(s, w, now) == w.table + tail;
    }
  }
}
