// The table helpers of the dashboard (internal/ui/helpers.go): rows and
// column titles for the host table, the search filter, the column sort and
// its numeric address comparator.

module Helpers {
  import opened Maybe
  import opened GoStrings
  import opened Hosts

  // ---------------------------------------------------------------------
  // Rows
  // ---------------------------------------------------------------------

  /** One table row: Id, IP, MAC, Vendor, Hostname. */
  type Row = seq<string>

  const NoHostsText: string := "No hosts found"

  /** The only row of an empty table. */
  const Placeholder: Row := ["-", NoHostsText, "-", "-", "-"]

  function RowOf(h: HostInfo): Row
  {
    [Itoa(h.id), h.ip, h.mac, h.vendor, h.hostname]
  }

  /** The rows buildRows produces for `hosts`. */
  function TableRows(hosts: seq<HostInfo>): seq<Row>
  {
    if |hosts| == 0 then [Placeholder]
    else seq(|hosts|, i requires 0 <= i < |hosts| => RowOf(hosts[i]))
  }

  method BuildRows(hosts: seq<HostInfo>) returns (rows: seq<Row>)
    ensures rows == TableRows(hosts)
  {
    if |hosts| == 0 {
      return [Placeholder];
    }
    rows := [];
    for i := 0 to |hosts|
      invariant |rows| == i
      invariant forall k :: 0 <= k < i ==> rows[k] == RowOf(hosts[k])
    {
      var h := hosts[i];
      rows := rows + [[Itoa(h.id), h.ip, h.mac, h.vendor, h.hostname]];
    }
  }

  /** Reads a table row back into a host; the placeholder row is not a host. */
  function ParseRow(row: Row): Option<HostInfo>
  {
    if |row| == 5 && Atoi(row[0]).Some? then
      Some(HostInfo(Atoi(row[0]).value, row[1], row[2], row[3], row[4]))
    else None
  }

  /**
   * The table loses nothing: an empty list shows only the placeholder, and
   * otherwise every row reads back as the host in the same position.
   */
  lemma TableRowsRoundTrip(hosts: seq<HostInfo>)
    requires forall h :: h in hosts ==> MinInt <= h.id <= MaxInt
    ensures |hosts| == 0 ==> TableRows(hosts) == [Placeholder] && ParseRow(Placeholder) == None
    ensures |hosts| > 0 ==> |TableRows(hosts)| == |hosts|
    ensures forall i :: 0 <= i < |hosts| ==> ParseRow(TableRows(hosts)[i]) == Some(hosts[i])
  {
    assert Atoi("-") == None by {
      assert !IsDigit("-"[0]);
    }
    forall i | 0 <= i < |hosts|
      ensures ParseRow(TableRows(hosts)[i]) == Some(hosts[i])
    {
      assert hosts[i] in hosts;
      IdCellRoundTrip(hosts[i]);
    }
  }

  /** The Id cell of a host's row reads back as the host's id. */
  lemma IdCellRoundTrip(h: HostInfo)
    requires MinInt <= h.id <= MaxInt
    ensures Atoi(RowOf(h)[0]) == Some(h.id)
  {
    ItoaRoundTrip(h.id);
  }

  /**
   * A host's row always differs from the placeholder: its Id cell is never
   * "-". The handlers look only at the IP cell, though, and that cell
   * shows the placeholder's text exactly when the host's IP is that text.
   */
  lemma RowIsNeverPlaceholder(h: HostInfo)
    ensures RowOf(h) != Placeholder
    ensures RowOf(h)[1] == Placeholder[1] <==> h.ip == NoHostsText
  {
    var cell := Itoa(h.id);
    if h.id >= 0 {
      NatDigitsValue(h.id);
      assert IsDigit(cell[0]);
    } else {
      assert |cell| >= 2;
    }
    assert cell != "-";
  }

  // ---------------------------------------------------------------------
  // Column titles
  // ---------------------------------------------------------------------

  const UpArrow: string := " \U{2191}"
  const DownArrow: string := " \U{2193}"
  const BaseTitles: seq<string> := ["Id", "IP", "MAC", "Vendor", "Hostname"]

  /** The closure addSortIndicator inside buildColumns. */
  function AddSortIndicator(title: string, col: int, sortCol: int, ascending: bool): string
  {
    if col == sortCol then
      if ascending then title + UpArrow else title + DownArrow
    else title
  }

  /** The titles of the five columns built by buildColumns. */
  function ColumnTitles(sortCol: int, ascending: bool): (titles: seq<string>)
    ensures |titles| == 5
  {
    [ "Id",
      AddSortIndicator("IP", 1, sortCol, ascending),
      AddSortIndicator("MAC", 2, sortCol, ascending),
      AddSortIndicator("Vendor", 3, sortCol, ascending),
      AddSortIndicator("Hostname", 4, sortCol, ascending) ]
  }

  predicate HasIndicator(title: string)
  {
    HasSuffix(title, UpArrow) || HasSuffix(title, DownArrow)
  }

  /** A title that does not already end in an arrow gets one exactly on the sorted column. */
  lemma IndicatorShape(title: string, col: int, sortCol: int, ascending: bool)
    requires |title| >= 1 && title[|title| - 1] != UpArrow[1] && title[|title| - 1] != DownArrow[1]
    ensures HasIndicator(AddSortIndicator(title, col, sortCol, ascending)) <==> col == sortCol
    ensures col == sortCol ==>
      AddSortIndicator(title, col, sortCol, ascending) == title + (if ascending then UpArrow else DownArrow)
    ensures col != sortCol ==> AddSortIndicator(title, col, sortCol, ascending) == title
  {
    var t := AddSortIndicator(title, col, sortCol, ascending);
    if col == sortCol {
      var arrow := if ascending then UpArrow else DownArrow;
      assert t[|t| - 2..] == arrow;
    }
  }

  /**
   * Exactly the sorted column (1..4) carries an arrow, pointing up when
   * ascending; every other title, and always "Id", is the plain title.
   */
  lemma IndicatorOnlyOnSortColumn(sortCol: int, ascending: bool, k: int)
    requires 0 <= k < 5
    ensures HasIndicator(ColumnTitles(sortCol, ascending)[k]) <==> k == sortCol && k != 0
    ensures k == sortCol && k != 0 ==>
      ColumnTitles(sortCol, ascending)[k] == BaseTitles[k] + (if ascending then UpArrow else DownArrow)
    ensures k != sortCol || k == 0 ==> ColumnTitles(sortCol, ascending)[k] == BaseTitles[k]
  {
    var titles := ColumnTitles(sortCol, ascending);
    if k == 0 {
      assert titles[0] == "Id";
      assert !HasSuffix("Id", UpArrow) && !HasSuffix("Id", DownArrow);
    } else {
      var b := BaseTitles[k];
      assert b[|b| - 1] != UpArrow[1] && b[|b| - 1] != DownArrow[1];
      IndicatorShape(b, k, sortCol, ascending);
      assert titles[k] == AddSortIndicator(b, k, sortCol, ascending);
    }
  }

  // ---------------------------------------------------------------------
  // Filter
  // ---------------------------------------------------------------------

  /** `q` (already lower-cased) occurs in one of the host's lower-cased text fields. */
  predicate Matches(h: HostInfo, q: string)
  {
    Contains(Lower(h.ip), q) || Contains(Lower(h.mac), q) ||
    Contains(Lower(h.vendor), q) || Contains(Lower(h.hostname), q)
  }

  /** The hosts that match `q`, in their original order. */
  function Filtered(hosts: seq<HostInfo>, q: string): seq<HostInfo>
  {
    if |hosts| == 0 then []
    else
      var last := hosts[|hosts| - 1];
      Filtered(hosts[..|hosts| - 1], q) + (if Matches(last, q) then [last] else [])
  }

  /** What filterHosts returns: the input itself for an empty query. */
  function Filter(hosts: seq<HostInfo>, query: string): seq<HostInfo>
  {
    if query == "" then hosts else Filtered(hosts, Lower(query))
  }

  method FilterHosts(hosts: seq<HostInfo>, query: string) returns (filtered: seq<HostInfo>)
    ensures query == "" ==> filtered == hosts
    ensures filtered == Filter(hosts, query)
  {
    if query == "" {
      return hosts;
    }
    var q := Lower(query);
    filtered := [];
    for i := 0 to |hosts|
      invariant filtered == Filtered(hosts[..i], q)
    {
      var h := hosts[i];
      if Contains(Lower(h.ip), q) || Contains(Lower(h.mac), q) ||
         Contains(Lower(h.vendor), q) || Contains(Lower(h.hostname), q)
      {
        filtered := filtered + [h];
      }
      assert hosts[..i + 1][..i] == hosts[..i];
    }
    assert hosts[..|hosts|] == hosts;
  }

  lemma {:induction false} FilteredMembers(hosts: seq<HostInfo>, q: string, x: HostInfo)
    ensures x in Filtered(hosts, q) <==> x in hosts && Matches(x, q)
  {
    if |hosts| > 0 {
      var init := hosts[..|hosts| - 1];
      FilteredMembers(init, q, x);
      assert hosts == init + [hosts[|hosts| - 1]];
    }
  }

  /** Filtering distributes over concatenation: the relative order of kept hosts is the input's. */
  lemma {:induction false} FilteredAppend(a: seq<HostInfo>, b: seq<HostInfo>, q: string)
    ensures Filtered(a + b, q) == Filtered(a, q) + Filtered(b, q)
  {
    if |b| == 0 {
      assert a + b == a;
    } else {
      var init := b[..|b| - 1];
      FilteredAppend(a, init, q);
      assert (a + b)[..|a + b| - 1] == a + init;
    }
  }

  lemma {:induction false} FilteredShorter(hosts: seq<HostInfo>, q: string)
    ensures |Filtered(hosts, q)| <= |hosts|
  {
    if |hosts| > 0 {
      FilteredShorter(hosts[..|hosts| - 1], q);
    }
  }

  lemma {:induction false} FilteredIdempotent(hosts: seq<HostInfo>, q: string)
    ensures Filtered(Filtered(hosts, q), q) == Filtered(hosts, q)
  {
    if |hosts| > 0 {
      var init := hosts[..|hosts| - 1];
      var last := hosts[|hosts| - 1];
      var tail := if Matches(last, q) then [last] else [];
      FilteredIdempotent(init, q);
      FilteredAppend(Filtered(init, q), tail, q);
      if Matches(last, q) {
        assert Filtered(tail, q) == Filtered([], q) + [last];
      } else {
        assert tail == [];
      }
    }
  }

  /** Applying the same query twice changes nothing, and never lengthens the list. */
  lemma FilterIdempotent(hosts: seq<HostInfo>, query: string)
    ensures Filter(Filter(hosts, query), query) == Filter(hosts, query)
    ensures |Filter(hosts, query)| <= |hosts|
  {
    if query != "" {
      FilteredIdempotent(hosts, Lower(query));
      FilteredShorter(hosts, Lower(query));
    }
  }

  /** A host survives a non-empty query exactly when a field contains it, ignoring case. */
  lemma FilterKeepsExactlyMatches(hosts: seq<HostInfo>, query: string, x: HostInfo)
    requires query != ""
    ensures x in Filter(hosts, query) <==> x in hosts && Matches(x, Lower(query))
  {
    FilteredMembers(hosts, Lower(query), x);
  }

  // ---------------------------------------------------------------------
  // Address comparison
  // ---------------------------------------------------------------------

  /**
   * The octet loop of compareIPs from position `i` on: the first of the
   * first four positions where the octets differ decides, a part that does
   * not parse as an integer hands the decision to the whole strings.
   */
  function OctetsLess(parts1: seq<string>, parts2: seq<string>, i: nat, ip1: string, ip2: string): bool
    requires i <= 4
    decreases 4 - i
  {
    if i < 4 && i < |parts1| && i < |parts2| then
      var n1 := Atoi(parts1[i]);
      var n2 := Atoi(parts2[i]);
      if n1.None? || n2.None? then Less(ip1, ip2)
      else if n1.value != n2.value then n1.value < n2.value
      else OctetsLess(parts1, parts2, i + 1, ip1, ip2)
    else false
  }

  /** compareIPs(ip1, ip2): should ip1 sort before ip2? */
  function IpLess(ip1: string, ip2: string): bool
  {
    if ip1 == Sentinel && ip2 == Sentinel then false
    else if ip1 == Sentinel then false
    else if ip2 == Sentinel then true
    else OctetsLess(Split(ip1, '.'), Split(ip2, '.'), 0, ip1, ip2)
  }

  method CompareIPs(ip1: string, ip2: string) returns (less: bool)
    ensures less == IpLess(ip1, ip2)
    ensures ip1 == Sentinel ==> !less
    ensures ip1 != Sentinel && ip2 == Sentinel ==> less
  {
    if ip1 == Sentinel && ip2 == Sentinel {
      return false;
    }
    if ip1 == Sentinel {
      return false;
    }
    if ip2 == Sentinel {
      return true;
    }
    var parts1 := Split(ip1, '.');
    var parts2 := Split(ip2, '.');
    var i := 0;
    while i < 4 && i < |parts1| && i < |parts2|
      invariant 0 <= i <= 4
      invariant OctetsLess(parts1, parts2, i, ip1, ip2) == IpLess(ip1, ip2)
    {
      var num1 := Atoi(parts1[i]);
      var num2 := Atoi(parts2[i]);
      if num1.None? || num2.None? {
        return Less(ip1, ip2);
      }
      if num1.value != num2.value {
        return num1.value < num2.value;
      }
      i := i + 1;
    }
    return false;
  }

  lemma {:induction false} OctetsIrreflexive(parts: seq<string>, i: nat, ip: string)
    requires i <= 4
    ensures !OctetsLess(parts, parts, i, ip, ip)
    decreases 4 - i
  {
    if i < 4 && i < |parts| {
      if Atoi(parts[i]).None? {
        LessIrreflexive(ip);
      } else {
        OctetsIrreflexive(parts, i + 1, ip);
      }
    }
  }

  lemma {:induction false} OctetsAsymmetric(parts1: seq<string>, parts2: seq<string>, i: nat, ip1: string, ip2: string)
    requires i <= 4
    ensures OctetsLess(parts1, parts2, i, ip1, ip2) ==> !OctetsLess(parts2, parts1, i, ip2, ip1)
    decreases 4 - i
  {
    if i < 4 && i < |parts1| && i < |parts2| {
      var n1 := Atoi(parts1[i]);
      var n2 := Atoi(parts2[i]);
      if n1.None? || n2.None? {
        LessAsymmetric(ip1, ip2);
      } else if n1.value == n2.value {
        OctetsAsymmetric(parts1, parts2, i + 1, ip1, ip2);
      }
    }
  }

  /** No address sorts before itself. */
  lemma IpLessIrreflexive(ip: string)
    ensures !IpLess(ip, ip)
  {
    if ip != Sentinel {
      OctetsIrreflexive(Split(ip, '.'), 0, ip);
    }
  }

  /** Two addresses never sort before each other. */
  lemma IpLessAsymmetric(ip1: string, ip2: string)
    ensures IpLess(ip1, ip2) ==> !IpLess(ip2, ip1)
  {
    if ip1 != Sentinel && ip2 != Sentinel {
      OctetsAsymmetric(Split(ip1, '.'), Split(ip2, '.'), 0, ip1, ip2);
    }
  }

  /** The sentinel sorts after every real address and is not before itself. */
  lemma IpLessSentinelLast(ip: string)
    ensures !IpLess(Sentinel, ip)
    ensures ip != Sentinel ==> IpLess(ip, Sentinel)
  {
  }

  /** A dotted quad splits into its four parts. */
  lemma SplitQuad(a: string, b: string, c: string, d: string)
    requires '.' !in a && '.' !in b && '.' !in c && '.' !in d
    ensures Split(a + "." + b + "." + c + "." + d, '.') == [a, b, c, d]
  {
    var cd := c + ['.'] + d;
    SplitWithoutSep(d, '.');
    SplitAtFirst(c, d, '.');
    assert Split(cd, '.') == [c, d];
    var bcd := b + ['.'] + cd;
    SplitAtFirst(b, cd, '.');
    assert Split(bcd, '.') == [b, c, d];
    var abcd := a + ['.'] + bcd;
    SplitAtFirst(a, bcd, '.');
    assert Split(abcd, '.') == [a, b, c, d];
    DottedQuad(a, b, c, d);
  }

  lemma DottedQuad(a: string, b: string, c: string, d: string)
    ensures a + "." + b + "." + c + "." + d == a + ['.'] + (b + ['.'] + (c + ['.'] + d))
  {
  }

  /** The octet text `s`, written by Itoa, reads back as `n`. */
  lemma ReadOctet(n: nat, s: string)
    requires n <= 255 && s == Itoa(n)
    ensures Atoi(s) == Some(n)
  {
    ItoaRoundTrip(n);
  }

  lemma IpLessByParts(a: string, b: string, p1: seq<string>, p2: seq<string>)
    requires a != Sentinel && b != Sentinel
    requires Split(a, '.') == p1 && Split(b, '.') == p2
    ensures IpLess(a, b) == OctetsLess(p1, p2, 0, a, b)
  {
  }

  lemma SplitExample(a: string, w: string, x: string, y: string, z: string)
    requires '.' !in w && '.' !in x && '.' !in y && '.' !in z
    requires a == w + "." + x + "." + y + "." + z
    ensures Split(a, '.') == [w, x, y, z]
  {
    SplitQuad(w, x, y, z);
  }

  /** An address of four dot-separated parts, each of which strconv.Atoi accepts. */
  predicate NumericQuad(ip: string)
  {
    var p := Split(ip, '.');
    |p| == 4 && forall i :: 0 <= i < 4 ==> Atoi(p[i]).Some?
  }

  /** The four numbers of a numeric dotted quad. */
  function Octets(ip: string): (o: seq<int>)
    requires NumericQuad(ip)
    ensures |o| == 4
  {
    var p := Split(ip, '.');
    [Atoi(p[0]).value, Atoi(p[1]).value, Atoi(p[2]).value, Atoi(p[3]).value]
  }

  /** Lexicographic order on numbers: the first position where they differ decides. */
  function LexLess(x: seq<int>, y: seq<int>): bool
  {
    if |x| == 0 || |y| == 0 then false
    else if x[0] != y[0] then x[0] < y[0]
    else LexLess(x[1..], y[1..])
  }

  lemma QuadNotSentinel(ip: string)
    requires NumericQuad(ip)
    ensures ip != Sentinel
  {
    SplitWithoutSep(Sentinel, '.');
  }

  /** From position `i` on, the octet loop over two numeric quads is lexicographic order. */
  lemma {:induction false} OctetsLessIsLex(p1: seq<string>, p2: seq<string>, o1: seq<int>, o2: seq<int>, i: nat, a: string, b: string)
    requires i <= 4 && |p1| == |p2| == |o1| == |o2| == 4
    requires forall k :: 0 <= k < 4 ==> Atoi(p1[k]) == Some(o1[k]) && Atoi(p2[k]) == Some(o2[k])
    ensures OctetsLess(p1, p2, i, a, b) == LexLess(o1[i..], o2[i..])
    decreases 4 - i
  {
    if i < 4 {
      OctetsLessIsLex(p1, p2, o1, o2, i + 1, a, b);
      assert o1[i..][1..] == o1[i + 1..] && o2[i..][1..] == o2[i + 1..];
    }
  }

  /**
   * Octets compare as numbers: between two numeric dotted quads, compareIPs
   * is the lexicographic order of their octet values, so the first octet
   * that differs decides.
   */
  lemma IpLessNumericOctets(a: string, b: string)
    requires NumericQuad(a) && NumericQuad(b)
    ensures IpLess(a, b) <==> LexLess(Octets(a), Octets(b))
  {
    QuadNotSentinel(a);
    QuadNotSentinel(b);
    OctetsLessIsLex(Split(a, '.'), Split(b, '.'), Octets(a), Octets(b), 0, a, b);
    assert Octets(a)[0..] == Octets(a) && Octets(b)[0..] == Octets(b);
  }

  /** For equally long sequences, not-after is transitive. */
  lemma {:induction false} LexNotLessTransitive(x: seq<int>, y: seq<int>, z: seq<int>)
    requires |x| == |y| == |z|
    requires !LexLess(y, x) && !LexLess(z, y)
    ensures !LexLess(z, x)
  {
    if |x| > 0 && x[0] == y[0] == z[0] {
      LexNotLessTransitive(x[1..], y[1..], z[1..]);
    }
  }

  /** For equally long sequences, neither before the other means equal. */
  lemma {:induction false} LexTied(x: seq<int>, y: seq<int>)
    requires |x| == |y|
    ensures !LexLess(x, y) && !LexLess(y, x) <==> x == y
  {
    if |x| > 0 {
      LexTied(x[1..], y[1..]);
      assert x == [x[0]] + x[1..] && y == [y[0]] + y[1..];
    }
  }

  /** The addresses on which compareIPs is a strict weak order: "none" and numeric dotted quads. */
  predicate IpSortable(ip: string)
  {
    ip == Sentinel || NumericQuad(ip)
  }

  /** On sortable addresses, not-after is transitive. */
  lemma IpNotLessTransitive(a: string, b: string, c: string)
    requires IpSortable(a) && IpSortable(b) && IpSortable(c)
    requires !IpLess(b, a) && !IpLess(c, b)
    ensures !IpLess(c, a)
  {
    if c != Sentinel && a != Sentinel && b != Sentinel {
      IpLessNumericOctets(b, a);
      IpLessNumericOctets(c, b);
      IpLessNumericOctets(c, a);
      LexNotLessTransitive(Octets(a), Octets(b), Octets(c));
    }
  }

  /** On sortable addresses compareIPs is transitive. */
  lemma IpLessTransitive(a: string, b: string, c: string)
    requires IpSortable(a) && IpSortable(b) && IpSortable(c)
    requires IpLess(a, b) && IpLess(b, c)
    ensures IpLess(a, c)
  {
    IpLessAsymmetric(a, b);
    IpLessAsymmetric(b, c);
    if !IpLess(a, c) {
      IpNotLessTransitive(c, a, b);
      assert false;
    }
  }

  lemma CycleOctetsParts(a: string, b: string, c: string)
    requires a == "9.0.0.1" && b == "10.0.0.1" && c == "2001:db8::1"
    ensures OctetsLess(["9", "0", "0", "1"], ["10", "0", "0", "1"], 0, a, b)
    ensures OctetsLess(["10", "0", "0", "1"], [c], 0, b, c)
    ensures OctetsLess([c], ["9", "0", "0", "1"], 0, c, a)
  {
    ReadOctet(9, "9");
    ReadOctet(10, "10");
    assert Atoi(c) == None by {
      assert !IsDigit(c[4]);
    }
    assert Less(b, c) && Less(c, a);
  }

  /**
   * Mixing the numeric comparison with the whole-string fallback makes
   * compareIPs cyclic, so it is not a strict weak order: an IPv6 address
   * beside two IPv4 addresses is enough.
   */
  lemma IpLessCycle(a: string, b: string, c: string)
    requires a == "9.0.0.1" && b == "10.0.0.1" && c == "2001:db8::1"
    ensures IpLess(a, b) && IpLess(b, c) && IpLess(c, a)
  {
    var pa, pb := ["9", "0", "0", "1"], ["10", "0", "0", "1"];
    SplitExample(a, "9", "0", "0", "1");
    SplitExample(b, "10", "0", "0", "1");
    SplitWithoutSep(c, '.');
    IpLessByParts(a, b, pa, pb);
    IpLessByParts(b, c, pb, [c]);
    IpLessByParts(c, a, [c], pa);
    CycleOctetsParts(a, b, c);
  }

  // ---------------------------------------------------------------------
  // Sort
  // ---------------------------------------------------------------------

  /** The text compared for the MAC (2), Vendor (3) and Hostname (4) columns. */
  function Key(col: int, h: HostInfo): string
  {
    if col == 2 then h.mac else if col == 3 then h.vendor else h.hostname
  }

  /** The `less` computed per column inside sortHosts' comparator. */
  function KeyLess(col: int, x: HostInfo, y: HostInfo): bool
  {
    if col == 1 then IpLess(x.ip, y.ip)
    else if 2 <= col <= 4 then Less(Key(col, x), Key(col, y))
    else false
  }

  /** The comparator sortHosts hands to sort.Slice: descending negates `less`. */
  function SortLess(col: int, ascending: bool, x: HostInfo, y: HostInfo): bool
  {
    if !(1 <= col <= 4) then false
    else if ascending then KeyLess(col, x, y)
    else !KeyLess(col, x, y)
  }

  /** `x` may stay in front of `y` in a list sorted by `col` in that direction. */
  predicate Ordered(col: int, ascending: bool, x: HostInfo, y: HostInfo)
  {
    if ascending then !KeyLess(col, y, x) else !KeyLess(col, x, y)
  }

  predicate AdjacentOrdered(s: seq<HostInfo>, col: int, ascending: bool)
  {
    forall k :: 0 <= k < |s| - 1 ==> Ordered(col, ascending, s[k], s[k + 1])
  }

  predicate SortedBy(s: seq<HostInfo>, col: int, ascending: bool)
  {
    forall p, q :: 0 <= p < q < |s| ==> Ordered(col, ascending, s[p], s[q])
  }

  lemma KeyLessAsymmetric(col: int, x: HostInfo, y: HostInfo)
    ensures KeyLess(col, x, y) ==> !KeyLess(col, y, x)
  {
    if col == 1 {
      IpLessAsymmetric(x.ip, y.ip);
    } else if 2 <= col <= 4 {
      LessAsymmetric(Key(col, x), Key(col, y));
    }
  }

  /** A pair the comparator swaps ends up in order. */
  lemma SwapOrders(col: int, ascending: bool, x: HostInfo, y: HostInfo)
    requires SortLess(col, ascending, x, y)
    ensures Ordered(col, ascending, x, y)
  {
    KeyLessAsymmetric(col, x, y);
  }

  /** A pair the comparator leaves alone is in order. */
  lemma StayOrders(col: int, ascending: bool, w: HostInfo, x: HostInfo)
    requires !SortLess(col, ascending, x, w)
    ensures Ordered(col, ascending, w, x)
  {
    KeyLessAsymmetric(col, x, w);
  }

  method SortLessAt(col: int, ascending: bool, x: HostInfo, y: HostInfo) returns (less: bool)
    ensures less == SortLess(col, ascending, x, y)
  {
    var keyLess: bool;
    if col == 1 {
      keyLess := CompareIPs(x.ip, y.ip);
    } else if col == 2 {
      keyLess := Less(x.mac, y.mac);
    } else if col == 3 {
      keyLess := Less(x.vendor, y.vendor);
    } else if col == 4 {
      keyLess := Less(x.hostname, y.hostname);
    } else {
      return false;
    }
    less := if ascending then keyLess else !keyLess;
  }

  /**
   * One pass of the inner loop of Go's insertion sort: `x`, appended after
   * the already sorted `s`, moves left while the comparator puts it before
   * its left neighbour.
   */
  function Insert(s: seq<HostInfo>, x: HostInfo, col: int, ascending: bool): (r: seq<HostInfo>)
    ensures |r| == |s| + 1
  {
    if |s| == 0 then [x]
    else if SortLess(col, ascending, x, s[|s| - 1]) then Insert(s[..|s| - 1], x, col, ascending) + [s[|s| - 1]]
    else s + [x]
  }

  /**
   * What sort.Slice leaves in the copy: Go's insertion sort, which
   * sort.Slice runs on slices of up to twelve elements.
   */
  function InsertionSorted(s: seq<HostInfo>, col: int, ascending: bool): seq<HostInfo>
  {
    if |s| == 0 then []
    else Insert(InsertionSorted(s[..|s| - 1], col, ascending), s[|s| - 1], col, ascending)
  }

  /** What sortHosts returns. */
  function SortedHosts(hosts: seq<HostInfo>, col: int, ascending: bool): seq<HostInfo>
  {
    if col == 0 || |hosts| == 0 then hosts else InsertionSorted(hosts, col, ascending)
  }

  lemma {:induction false} InsertPermutes(s: seq<HostInfo>, x: HostInfo, col: int, ascending: bool)
    ensures multiset(Insert(s, x, col, ascending)) == multiset(s) + multiset{x}
  {
    if |s| > 0 {
      var init, last := s[..|s| - 1], s[|s| - 1];
      assert s == init + [last];
      if SortLess(col, ascending, x, last) {
        var rest := Insert(init, x, col, ascending);
        assert Insert(s, x, col, ascending) == rest + [last];
        InsertPermutes(init, x, col, ascending);
        assert multiset(rest + [last]) == multiset(rest) + multiset{last};
      } else {
        assert Insert(s, x, col, ascending) == s + [x];
      }
    }
  }

  /** Inserting into an ordered list keeps it ordered; the new last element is `x` or the old last. */
  lemma {:induction false} InsertKeepsOrder(s: seq<HostInfo>, x: HostInfo, col: int, ascending: bool)
    requires AdjacentOrdered(s, col, ascending)
    ensures AdjacentOrdered(Insert(s, x, col, ascending), col, ascending)
    ensures var r := Insert(s, x, col, ascending);
      |r| == |s| + 1 && (r[|r| - 1] == x || (|s| > 0 && r[|r| - 1] == s[|s| - 1]))
  {
    var r := Insert(s, x, col, ascending);
    if |s| > 0 {
      var init, last := s[..|s| - 1], s[|s| - 1];
      if SortLess(col, ascending, x, last) {
        assert AdjacentOrdered(init, col, ascending) by {
          forall k | 0 <= k < |init| - 1 ensures Ordered(col, ascending, init[k], init[k + 1]) {
            assert init[k] == s[k] && init[k + 1] == s[k + 1];
          }
        }
        InsertKeepsOrder(init, x, col, ascending);
        var r' := Insert(init, x, col, ascending);
        if r'[|r'| - 1] == x {
          SwapOrders(col, ascending, x, last);
        } else {
          assert Ordered(col, ascending, s[|s| - 2], s[|s| - 1]);
        }
        assert r == r' + [last];
      } else {
        StayOrders(col, ascending, last, x);
      }
    }
  }

  lemma {:induction false} InsertionSortedPermutes(s: seq<HostInfo>, col: int, ascending: bool)
    ensures multiset(InsertionSorted(s, col, ascending)) == multiset(s)
    ensures AdjacentOrdered(InsertionSorted(s, col, ascending), col, ascending)
  {
    if |s| > 0 {
      var init, last := s[..|s| - 1], s[|s| - 1];
      var sortedInit := InsertionSorted(init, col, ascending);
      assert InsertionSorted(s, col, ascending) == Insert(sortedInit, last, col, ascending);
      InsertionSortedPermutes(init, col, ascending);
      InsertPermutes(sortedInit, last, col, ascending);
      InsertKeepsOrder(sortedInit, last, col, ascending);
      assert s == init + [last];
      assert multiset(s) == multiset(init) + multiset{last};
    }
  }

  /**
   * sortHosts' result is a permutation of its input, ordered under the
   * column's comparator at every adjacent pair, and the input itself for
   * column 0 or an empty list.
   */
  lemma SortedHostsProperties(hosts: seq<HostInfo>, col: int, ascending: bool)
    ensures multiset(SortedHosts(hosts, col, ascending)) == multiset(hosts)
    ensures |SortedHosts(hosts, col, ascending)| == |hosts|
    ensures AdjacentOrdered(SortedHosts(hosts, col, ascending), col, ascending)
    ensures col == 0 || |hosts| == 0 ==> SortedHosts(hosts, col, ascending) == hosts
  {
    InsertionSortedPermutes(hosts, col, ascending);
    var r := SortedHosts(hosts, col, ascending);
    assert |multiset(r)| == |multiset(hosts)|;
  }

  /** The inner loop's step: inserting past one more element of the sorted prefix. */
  lemma InsertStep(p: seq<HostInfo>, x: HostInfo, j: int, col: int, ascending: bool)
    requires 0 < j <= |p|
    requires SortLess(col, ascending, x, p[j - 1])
    ensures Insert(p[..j], x, col, ascending) == Insert(p[..j - 1], x, col, ascending) + [p[j - 1]]
  {
    assert p[..j][..j - 1] == p[..j - 1];
  }

  /** Where the inner loop stops, the element lands right after the prefix it has not passed. */
  lemma InsertStop(p: seq<HostInfo>, x: HostInfo, j: int, col: int, ascending: bool)
    requires 0 <= j <= |p|
    requires j > 0 ==> !SortLess(col, ascending, x, p[j - 1])
    ensures Insert(p[..j], x, col, ascending) == p[..j] + [x]
  {
  }

  /** Swapping x with its left neighbour p[j - 1], in the inner loop's picture of the array. */
  lemma SwapInPicture(p: seq<HostInfo>, x: HostInfo, j: int, rest: seq<HostInfo>)
    requires 0 < j <= |p|
    ensures (p[..j] + [x] + p[j..] + rest)[j := p[j - 1]][j - 1 := x] == p[..j - 1] + [x] + p[j - 1..] + rest
  {
    var front, y, back := p[..j - 1], p[j - 1], p[j..] + rest;
    assert p[..j] + [x] + p[j..] + rest == front + [y, x] + back by {
      assert p[..j] == front + [y];
    }
    assert p[..j - 1] + [x] + p[j - 1..] + rest == front + [x, y] + back by {
      assert p[j - 1..] == [y] + p[j..];
    }
  }

  /** One swap of the inner loop: the element has passed one more of the sorted prefix. */
  lemma InsertSwapStep(p: seq<HostInfo>, x: HostInfo, j: int, col: int, ascending: bool)
    requires 0 < j <= |p|
    requires SortLess(col, ascending, x, p[j - 1])
    requires Insert(p, x, col, ascending) == Insert(p[..j], x, col, ascending) + p[j..]
    ensures Insert(p, x, col, ascending) == Insert(p[..j - 1], x, col, ascending) + p[j - 1..]
  {
    InsertStep(p, x, j, col, ascending);
    assert p[j - 1..] == [p[j - 1]] + p[j..];
  }

  /** The inner loop of Go's insertion sort: a[i] moves left into the sorted a[..i]. */
  method InsertLast(a: array<HostInfo>, i: int, col: int, ascending: bool)
    requires 0 <= i < a.Length
    modifies a
    ensures a[..] == Insert(old(a[..i]), old(a[i]), col, ascending) + old(a[i + 1..])
  {
    ghost var p, rest := a[..i], a[i + 1..];
    var x := a[i];
    var j := i;
    assert a[..] == p[..j] + [x] + p[j..] + rest;
    assert p[..j] == p && p[j..] == [];
    while j > 0
      invariant 0 <= j <= i
      invariant a[..] == p[..j] + [x] + p[j..] + rest
      invariant Insert(p, x, col, ascending) == Insert(p[..j], x, col, ascending) + p[j..]
    {
      ghost var before := a[..];
      assert before[j] == x && before[j - 1] == p[j - 1] by {
        assert before[j] == (p[..j] + [x] + p[j..] + rest)[j];
      }
      var swap := SortLessAt(col, ascending, a[j], a[j - 1]);
      if !swap {
        break;
      }
      a[j], a[j - 1] := a[j - 1], a[j];
      assert a[..] == before[j := p[j - 1]][j - 1 := x];
      SwapInPicture(p, x, j, rest);
      InsertSwapStep(p, x, j, col, ascending);
      j := j - 1;
    }
    InsertStop(p, x, j, col, ascending);
  }

  /**
   * sort.Slice on the copy: Go's insertion sort, run over the prefixes
   * a[..2], a[..3], ... in turn.
   */
  method InsertionSort(a: array<HostInfo>, col: int, ascending: bool)
    modifies a
    ensures a[..] == InsertionSorted(old(a[..]), col, ascending)
  {
    if a.Length == 0 {
      return;
    }
    ghost var orig := a[..];
    var i := 1;
    assert orig[..1] == [orig[0]];
    while i < a.Length
      invariant 1 <= i <= a.Length
      invariant a[..i] == InsertionSorted(orig[..i], col, ascending)
      invariant a[i..] == orig[i..]
    {
      assert a[i] == orig[i];
      InsertLast(a, i, col, ascending);
      assert a[i + 1..] == orig[i + 1..];
      assert orig[..i + 1][..i] == orig[..i];
      assert a[..i + 1] == InsertionSorted(orig[..i + 1], col, ascending);
      i := i + 1;
    }
    assert a[..] == a[..i] && orig == orig[..i];
  }

  /**
   * sortHosts: the input itself for column 0 or an empty list, otherwise a
   * fresh sorted copy; the caller's sequence is a value and is never changed.
   */
  method SortHosts(hosts: seq<HostInfo>, col: int, ascending: bool) returns (sorted: seq<HostInfo>)
    ensures sorted == SortedHosts(hosts, col, ascending)
  {
    if col == 0 || |hosts| == 0 {
      return hosts;
    }
    var a := new HostInfo[|hosts|](i requires 0 <= i < |hosts| => hosts[i]);
    assert a[..] == hosts;
    InsertionSort(a, col, ascending);
    sorted := a[..];
  }

  /**
   * The columns whose comparator is a strict weak order on the hosts of `s`:
   * the string columns always, the IP column when every address is "none"
   * or a numeric dotted quad.
   */
  predicate WeakOrderOn(s: seq<HostInfo>, col: int)
  {
    2 <= col <= 4 || (col == 1 && forall h :: h in s ==> IpSortable(h.ip))
  }

  lemma OrderedTransitive(col: int, ascending: bool, x: HostInfo, y: HostInfo, z: HostInfo)
    requires 2 <= col <= 4 || (col == 1 && IpSortable(x.ip) && IpSortable(y.ip) && IpSortable(z.ip))
    requires Ordered(col, ascending, x, y) && Ordered(col, ascending, y, z)
    ensures Ordered(col, ascending, x, z)
  {
    if col == 1 {
      if ascending {
        IpNotLessTransitive(x.ip, y.ip, z.ip);
      } else {
        IpNotLessTransitive(z.ip, y.ip, x.ip);
      }
    } else if ascending {
      NotLessTransitive(Key(col, x), Key(col, y), Key(col, z));
    } else {
      NotLessTransitive(Key(col, z), Key(col, y), Key(col, x));
    }
  }

  lemma OrderedBothWays(col: int, ascending: bool, x: HostInfo, y: HostInfo)
    requires 2 <= col <= 4
    requires Ordered(col, ascending, x, y) && Ordered(col, ascending, y, x)
    ensures Key(col, x) == Key(col, y)
  {
    LessTotal(Key(col, x), Key(col, y));
  }

  /** Where the comparator is a strict weak order, neighbours in order means the whole list is in order. */
  lemma {:induction false} AdjacentToSorted(s: seq<HostInfo>, col: int, ascending: bool)
    requires WeakOrderOn(s, col)
    requires AdjacentOrdered(s, col, ascending)
    ensures SortedBy(s, col, ascending)
  {
    if |s| > 1 {
      var tail := s[1..];
      assert WeakOrderOn(tail, col) by {
        forall h | h in tail ensures h in s {
          var i :| 0 <= i < |tail| && tail[i] == h;
          assert s[i + 1] == h;
        }
      }
      assert AdjacentOrdered(tail, col, ascending) by {
        forall k | 0 <= k < |tail| - 1
          ensures Ordered(col, ascending, tail[k], tail[k + 1])
        {
          assert tail[k] == s[k + 1] && tail[k + 1] == s[k + 2];
        }
      }
      AdjacentToSorted(tail, col, ascending);
      forall p, q | 0 <= p < q < |s|
        ensures Ordered(col, ascending, s[p], s[q])
      {
        if p > 0 {
          assert s[p] == tail[p - 1] && s[q] == tail[q - 1];
        } else if q > 1 {
          assert s[1] == tail[0] && s[q] == tail[q - 1];
          assert s[0] in s && s[1] in s && s[q] in s;
          OrderedTransitive(col, ascending, s[0], s[1], s[q]);
        }
      }
    }
  }

  /**
   * Where the comparator is a strict weak order on the hosts, sortHosts'
   * result is in order at every pair, not only at neighbours.
   */
  lemma SortedHostsSorted(hosts: seq<HostInfo>, col: int, ascending: bool)
    requires WeakOrderOn(hosts, col)
    ensures SortedBy(SortedHosts(hosts, col, ascending), col, ascending)
  {
    var r := SortedHosts(hosts, col, ascending);
    SortedHostsProperties(hosts, col, ascending);
    forall x | x in r ensures x in hosts {
      assert x in multiset(r);
    }
    AdjacentToSorted(r, col, ascending);
  }

  /** Sorted ascending by MAC, Vendor or Hostname: keys never decrease along the list. */
  lemma SortedAscendingKeys(hosts: seq<HostInfo>, col: int)
    requires 2 <= col <= 4
    ensures var s := SortedHosts(hosts, col, true);
      forall p, q :: 0 <= p < q < |s| ==> !Less(Key(col, s[q]), Key(col, s[p]))
  {
    SortedHostsSorted(hosts, col, true);
  }

  /** Sorted descending by MAC, Vendor or Hostname: keys never increase along the list. */
  lemma SortedDescendingKeys(hosts: seq<HostInfo>, col: int)
    requires 2 <= col <= 4
    ensures var s := SortedHosts(hosts, col, false);
      forall p, q :: 0 <= p < q < |s| ==> !Less(Key(col, s[p]), Key(col, s[q]))
  {
    SortedHostsSorted(hosts, col, false);
  }

  /**
   * Sorted ascending by IP over "none" and numeric dotted quads: the octet
   * values never decrease along the list, and every "none" comes last.
   */
  lemma SortedIpOctets(hosts: seq<HostInfo>)
    requires forall h :: h in hosts ==> IpSortable(h.ip)
    ensures var s := SortedHosts(hosts, 1, true);
      forall p, q :: 0 <= p < q < |s| ==>
        && (s[p].ip == Sentinel ==> s[q].ip == Sentinel)
        && (NumericQuad(s[p].ip) && NumericQuad(s[q].ip) ==> !LexLess(Octets(s[q].ip), Octets(s[p].ip)))
  {
    var s := SortedHosts(hosts, 1, true);
    SortedHostsSorted(hosts, 1, true);
    forall p, q | 0 <= p < q < |s|
      ensures s[p].ip == Sentinel ==> s[q].ip == Sentinel
      ensures NumericQuad(s[p].ip) && NumericQuad(s[q].ip) ==> !LexLess(Octets(s[q].ip), Octets(s[p].ip))
    {
      assert Ordered(1, true, s[p], s[q]);
      if NumericQuad(s[p].ip) && NumericQuad(s[q].ip) {
        IpLessNumericOctets(s[q].ip, s[p].ip);
      }
    }
  }

  function Reverse<T>(s: seq<T>): (r: seq<T>)
    ensures |r| == |s|
  {
    if |s| == 0 then [] else Reverse(s[1..]) + [s[0]]
  }

  lemma {:induction false} ReverseAt<T>(s: seq<T>, i: int)
    requires 0 <= i < |s|
    ensures Reverse(s)[i] == s[|s| - 1 - i]
  {
    if i < |s| - 1 {
      ReverseAt(s[1..], i);
    }
  }

  lemma {:induction false} ReverseMultiset<T>(s: seq<T>)
    ensures multiset(Reverse(s)) == multiset(s)
  {
    if |s| > 0 {
      ReverseMultiset(s[1..]);
      assert s == [s[0]] + s[1..];
    }
  }

  /** Neither host sorts before the other under the column's comparator. */
  predicate Tied(col: int, x: HostInfo, y: HostInfo)
  {
    !KeyLess(col, x, y) && !KeyLess(col, y, x)
  }

  /** Within a list, tied hosts are the same host: the keys are pairwise distinct. */
  predicate KeysIdentify(s: seq<HostInfo>, col: int)
  {
    forall x, y :: x in s && y in s && Tied(col, x, y) ==> x == y
  }

  /** For the string columns, tied means equal text. */
  lemma TiedStrings(col: int, x: HostInfo, y: HostInfo)
    requires 2 <= col <= 4
    ensures Tied(col, x, y) <==> Key(col, x) == Key(col, y)
  {
    LessIrreflexive(Key(col, x));
    LessTotal(Key(col, x), Key(col, y));
  }

  /** For the IP column over numeric dotted quads, tied means equal octet values. */
  lemma TiedQuads(x: HostInfo, y: HostInfo)
    requires NumericQuad(x.ip) && NumericQuad(y.ip)
    ensures Tied(1, x, y) <==> Octets(x.ip) == Octets(y.ip)
  {
    IpLessNumericOctets(x.ip, y.ip);
    IpLessNumericOctets(y.ip, x.ip);
    LexTied(Octets(x.ip), Octets(y.ip));
  }

  /** Two sorted permutations of a list whose keys identify its hosts start with the same host. */
  lemma SortedHeadsEqual(s: seq<HostInfo>, t: seq<HostInfo>, col: int, ascending: bool)
    requires |s| > 0 && multiset(s) == multiset(t)
    requires SortedBy(s, col, ascending) && SortedBy(t, col, ascending)
    requires KeysIdentify(s, col)
    ensures |t| > 0 && s[0] == t[0]
  {
    assert s[0] in multiset(t);
    var j :| 0 <= j < |t| && t[j] == s[0];
    assert t[0] in multiset(s);
    var i :| 0 <= i < |s| && s[i] == t[0];
    if i > 0 && j > 0 {
      assert Ordered(col, ascending, s[0], s[i]);
      assert Ordered(col, ascending, t[0], t[j]);
      assert Tied(col, s[0], t[0]);
    }
  }

  lemma SortedTail(s: seq<HostInfo>, col: int, ascending: bool)
    requires |s| > 0 && SortedBy(s, col, ascending)
    ensures SortedBy(s[1..], col, ascending)
  {
    var tail := s[1..];
    forall p, q | 0 <= p < q < |tail| ensures Ordered(col, ascending, tail[p], tail[q]) {
      assert tail[p] == s[p + 1] && tail[q] == s[q + 1];
    }
  }

  lemma MultisetTail(s: seq<HostInfo>, t: seq<HostInfo>)
    requires |s| > 0 && |t| > 0 && s[0] == t[0] && multiset(s) == multiset(t)
    ensures multiset(s[1..]) == multiset(t[1..])
  {
    assert s == [s[0]] + s[1..] && t == [t[0]] + t[1..];
    assert multiset(s[1..]) == multiset(s) - multiset{s[0]};
    assert multiset(t[1..]) == multiset(t) - multiset{t[0]};
  }

  lemma KeysIdentifyTail(s: seq<HostInfo>, col: int)
    requires |s| > 0 && KeysIdentify(s, col)
    ensures KeysIdentify(s[1..], col)
  {
    forall x, y | x in s[1..] && y in s[1..] && Tied(col, x, y) ensures x == y {
      assert x in s && y in s;
    }
  }

  /** Two sorted permutations of a list whose keys identify its hosts are equal. */
  lemma {:induction false} SortedUnique(s: seq<HostInfo>, t: seq<HostInfo>, col: int, ascending: bool)
    requires multiset(s) == multiset(t)
    requires SortedBy(s, col, ascending) && SortedBy(t, col, ascending)
    requires KeysIdentify(s, col)
    ensures s == t
  {
    assert |s| == |multiset(s)| == |multiset(t)| == |t|;
    if |s| > 0 {
      SortedHeadsEqual(s, t, col, ascending);
      var s', t' := s[1..], t[1..];
      MultisetTail(s, t);
      SortedTail(s, col, ascending);
      SortedTail(t, col, ascending);
      KeysIdentifyTail(s, col);
      SortedUnique(s', t', col, ascending);
      assert s == [s[0]] + s' && t == [t[0]] + t';
    }
  }

  /**
   * When the comparator is a strict weak order on the hosts and no two of
   * them tie, sorting descending gives exactly the reverse of sorting
   * ascending.
   */
  lemma DescendingReversesAscending(hosts: seq<HostInfo>, col: int)
    requires WeakOrderOn(hosts, col)
    requires KeysIdentify(hosts, col)
    ensures SortedHosts(hosts, col, false) == Reverse(SortedHosts(hosts, col, true))
  {
    var up, down := SortedHosts(hosts, col, true), SortedHosts(hosts, col, false);
    SortedHostsProperties(hosts, col, true);
    SortedHostsProperties(hosts, col, false);
    SortedHostsSorted(hosts, col, true);
    SortedHostsSorted(hosts, col, false);
    var r := Reverse(up);
    ReverseMultiset(up);
    forall p, q | 0 <= p < q < |r|
      ensures Ordered(col, false, r[p], r[q])
    {
      ReverseAt(up, p);
      ReverseAt(up, q);
    }
    forall x | x in down
      ensures x in hosts
    {
      assert x in multiset(down);
    }
    SortedUnique(down, r, col, false);
  }
}
