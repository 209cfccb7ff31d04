// The host record shared by the scanner and the dashboard
// (internal/scanner/types.go).

module Hosts {
  /** Written into any field the discovery backend did not report. */
  const Sentinel: string := "none"

  /**
   * One discovered device. `id` is the position in the scan result; the
   * other fields hold what the backend reported, or the sentinel.
   */
  datatype HostInfo = HostInfo(
    id: int,
    ip: string,
    mac: string,
    vendor: string,
    hostname: string)
}
