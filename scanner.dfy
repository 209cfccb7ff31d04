// Host discovery (internal/scanner/nmap.go and the older
// internal/scanner/scanner.go): translating the discovery backend's report
// into host records, and the progress-reporting discipline of the polling
// loop that waits for that report.

module Scanner {
  import opened Maybe
  import opened Hosts

  /** One address the backend reports for a host, with the vendor it derived. */
  datatype Address = Address(addr: string, vendor: string)

  /** One discovered host as the backend reports it. */
  datatype NmapHost = NmapHost(addresses: seq<Address>, hostnames: seq<string>)

  /** The host record for the `i`-th reported host. */
  function HostFromNmap(i: int, h: NmapHost): HostInfo
  {
    HostInfo(
      i,
      if |h.addresses| > 0 then h.addresses[0].addr else Sentinel,
      if |h.addresses| > 1 then h.addresses[1].addr else Sentinel,
      if |h.addresses| > 1 then h.addresses[1].vendor else Sentinel,
      if |h.hostnames| > 0 then h.hostnames[0] else Sentinel)
  }

  /** What extractHostInfo returns for a report. */
  function Extracted(report: seq<NmapHost>): seq<HostInfo>
  {
    seq(|report|, i requires 0 <= i < |report| => HostFromNmap(i, report[i]))
  }

  /** extractHostInfo: one record per reported host, appended in order. */
  method ExtractHostInfo(report: seq<NmapHost>) returns (hosts: seq<HostInfo>)
    ensures hosts == Extracted(report)
  {
    hosts := [];
    var i := 0;
    while i < |report|
      invariant 0 <= i <= |report|
      invariant hosts == Extracted(report[..i])
    {
      var host := report[i];
      var ip, mac, vendor, hostname := Sentinel, Sentinel, Sentinel, Sentinel;
      if |host.addresses| > 0 {
        ip := host.addresses[0].addr;
      }
      if |host.addresses| > 1 {
        mac := host.addresses[1].addr;
        vendor := host.addresses[1].vendor;
      }
      if |host.hostnames| > 0 {
        hostname := host.hostnames[0];
      }
      assert report[..i + 1] == report[..i] + [host];
      hosts := hosts + [HostInfo(i, ip, mac, vendor, hostname)];
      i := i + 1;
    }
    assert report[..i] == report;
  }

  /**
   * Every record is the reported host in the same position, numbered by
   * that position; a field the backend left out holds the sentinel.
   */
  lemma ExtractedFields(report: seq<NmapHost>)
    ensures |Extracted(report)| == |report|
    ensures forall i :: 0 <= i < |report| ==>
      var r := Extracted(report)[i];
      var h := report[i];
      && r.id == i
      && (|h.addresses| > 0 ==> r.ip == h.addresses[0].addr)
      && (|h.addresses| == 0 ==> r.ip == Sentinel)
      && (|h.addresses| > 1 ==> r.mac == h.addresses[1].addr && r.vendor == h.addresses[1].vendor)
      && (|h.addresses| <= 1 ==> r.mac == Sentinel && r.vendor == Sentinel)
      && (|h.hostnames| > 0 ==> r.hostname == h.hostnames[0])
      && (|h.hostnames| == 0 ==> r.hostname == Sentinel)
  {
  }

  /** Only the first two addresses and the first hostname are read. */
  lemma LaterEntriesIgnored(i: int, h: NmapHost, more: seq<Address>, names: seq<string>)
    requires |h.addresses| >= 2 && |h.hostnames| >= 1
    ensures HostFromNmap(i, NmapHost(h.addresses + more, h.hostnames + names)) == HostFromNmap(i, h)
  {
  }

  /**
   * Translating two reports one after the other gives the translation of
   * their concatenation, the second renumbered after the first: order is
   * kept and nothing is merged or dropped.
   */
  lemma {:induction false} ExtractedAppend(a: seq<NmapHost>, b: seq<NmapHost>)
    ensures |Extracted(a + b)| == |a| + |b|
    ensures Extracted(a + b)[..|a|] == Extracted(a)
    ensures forall j :: 0 <= j < |b| ==> Extracted(a + b)[|a| + j] == Extracted(b)[j].(id := |a| + j)
  {
    var e := Extracted(a + b);
    forall j | 0 <= j < |a|
      ensures e[j] == Extracted(a)[j]
    {
      assert (a + b)[j] == a[j];
    }
    forall j | 0 <= j < |b|
      ensures e[|a| + j] == Extracted(b)[j].(id := |a| + j)
    {
      assert (a + b)[|a| + j] == b[j];
    }
  }

  // ---------------------------------------------------------------------
  // The scanner and its progress reporter
  // ---------------------------------------------------------------------

  /** The progress reporter a scanner calls: the no-op one, or one the caller supplied. */
  datatype Reporter = NoOp | Supplied(name: string)

  datatype NmapScanner = NmapScanner(progress: Reporter)

  /** NewNmapScanner: a missing reporter is replaced by the no-op one. */
  function NewNmapScanner(p: Option<Reporter>): (sc: NmapScanner)
    ensures p.Some? ==> sc.progress == p.value
    ensures p.None? ==> sc.progress == NoOp
  {
    NmapScanner(if p.None? then NoOp else p.value)
  }

  /** A call made on the progress reporter (or, in the older scanner, on its progress bar). */
  datatype Call = Start(message: string) | Update | Add(n: int) | Finish

  /**
   * What one pass of the polling loop finds: nothing yet, the backend's
   * report, the backend's error, or the context done with its error.
   */
  datatype Poll = Idle | Report(report: seq<NmapHost>) | ScanError(err: string) | Done(ctxErr: string)

  datatype ScanResult = Found(hosts: seq<HostInfo>) | Failed(err: string)

  const ScanMessage: string := "Scanning network..."

  /** A run of polls that ends: some pass finds something. */
  predicate Ends(polls: seq<Poll>)
  {
    exists k :: 0 <= k < |polls| && !polls[k].Idle?
  }

  /** The number of idle passes before the first pass that finds something. */
  function IdleCount(polls: seq<Poll>): (k: nat)
    requires Ends(polls)
    ensures k < |polls| && !polls[k].Idle?
    ensures forall j :: 0 <= j < k ==> polls[j].Idle?
  {
    if !polls[0].Idle? then 0
    else
      assert Ends(polls[1..]) by {
        var k :| 0 <= k < |polls| && !polls[k].Idle?;
        assert polls[1..][k - 1] == polls[k];
      }
      1 + IdleCount(polls[1..])
  }

  /** What Scan returns once a pass has found `p`. */
  function ResultOf(p: Poll): ScanResult
    requires !p.Idle?
  {
    match p
    case Report(report) => Found(Extracted(report))
    case ScanError(err) => Failed(err)
    case Done(ctxErr) => Failed(ctxErr)
  }

  function Repeat(c: Call, n: nat): (cs: seq<Call>)
    ensures |cs| == n && forall j :: 0 <= j < n ==> cs[j] == c
  {
    if n == 0 then [] else Repeat(c, n - 1) + [c]
  }

  /**
   * The polling loop shared by both scanners: `tick` on every idle pass,
   * Finish once on the pass that finds something, then return.
   */
  method PollLoop(polls: seq<Poll>, tick: Call) returns (result: ScanResult, calls: seq<Call>)
    requires Ends(polls)
    ensures result == ResultOf(polls[IdleCount(polls)])
    ensures calls == Repeat(tick, IdleCount(polls)) + [Finish]
  {
    ghost var k := IdleCount(polls);
    calls := [];
    var i := 0;
    while true
      invariant 0 <= i <= k
      invariant calls == Repeat(tick, i)
      decreases k - i
    {
      match polls[i]
      case Report(report) =>
        calls := calls + [Finish];
        var hosts := ExtractHostInfo(report);
        return Found(hosts), calls;
      case ScanError(err) =>
        calls := calls + [Finish];
        return Failed(err), calls;
      case Done(ctxErr) =>
        calls := calls + [Finish];
        return Failed(ctxErr), calls;
      case Idle =>
        calls := calls + [tick];
        i := i + 1;
    }
  }

  /**
   * NmapScanner.Scan: the calls it makes on its reporter and what it
   * returns, when the passes of its polling loop find `polls` in turn.
   * Every call goes to the scanner's own reporter, `receiver`.
   */
  method Scan(sc: NmapScanner, polls: seq<Poll>) returns (result: ScanResult, receiver: Reporter, calls: seq<Call>)
    requires Ends(polls)
    ensures result == ResultOf(polls[IdleCount(polls)])
    ensures receiver == sc.progress
    ensures calls == [Start(ScanMessage)] + Repeat(Update, IdleCount(polls)) + [Finish]
  {
    receiver := sc.progress;
    var polled;
    result, polled := PollLoop(polls, Update);
    calls := [Start(ScanMessage)] + polled;
  }

  /**
   * The older Scan: the progress bar is created with its description, and
   * each idle pass advances it by one.
   */
  method LegacyScan(polls: seq<Poll>) returns (result: ScanResult, calls: seq<Call>)
    requires Ends(polls)
    ensures result == ResultOf(polls[IdleCount(polls)])
    ensures calls == Repeat(Add(1), IdleCount(polls)) + [Finish]
  {
    result, calls := PollLoop(polls, Add(1));
  }

  /** The reporter discipline of one scan, as a predicate on its calls. */
  predicate Disciplined(calls: seq<Call>)
  {
    && |calls| >= 2
    && calls[0] == Start(ScanMessage)
    && calls[|calls| - 1] == Finish
    && forall j :: 1 <= j < |calls| - 1 ==> calls[j] == Update
  }

  /**
   * Start is called once and first, Finish once and last, and every call
   * between them is an Update, one per idle pass; the report is translated
   * only when the backend delivered one, and every other exit fails.
   */
  lemma ScanDiscipline(polls: seq<Poll>)
    requires Ends(polls)
    ensures var calls := [Start(ScanMessage)] + Repeat(Update, IdleCount(polls)) + [Finish];
      && Disciplined(calls)
      && |calls| == IdleCount(polls) + 2
    ensures var p := polls[IdleCount(polls)];
      && (ResultOf(p).Found? <==> p.Report?)
      && (p.Report? ==> ResultOf(p).hosts == Extracted(p.report))
      && (p.ScanError? ==> ResultOf(p) == Failed(p.err))
      && (p.Done? ==> ResultOf(p) == Failed(p.ctxErr))
  {
    var n := IdleCount(polls);
    var calls := [Start(ScanMessage)] + Repeat(Update, n) + [Finish];
    forall j | 1 <= j < |calls| - 1
      ensures calls[j] == Update
    {
      assert calls[j] == Repeat(Update, n)[j - 1];
    }
  }

  /** Passes after the first one that finds something are never made. */
  lemma LaterPollsIrrelevant(polls: seq<Poll>, rest: seq<Poll>)
    requires Ends(polls)
    ensures Ends(polls + rest)
    ensures IdleCount(polls + rest) == IdleCount(polls)
    ensures ResultOf((polls + rest)[IdleCount(polls)]) == ResultOf(polls[IdleCount(polls)])
  {
    var k := IdleCount(polls);
    assert (polls + rest)[k] == polls[k];
    IdleCountFirst(polls + rest, k);
  }

  /** The idle count is the first index that finds something. */
  lemma {:induction false} IdleCountFirst(polls: seq<Poll>, k: nat)
    requires k < |polls| && !polls[k].Idle?
    requires forall j :: 0 <= j < k ==> polls[j].Idle?
    ensures Ends(polls) && IdleCount(polls) == k
  {
    if k > 0 {
      assert polls[1..][k - 1] == polls[k];
      IdleCountFirst(polls[1..], k - 1);
    }
  }
}
