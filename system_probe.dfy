/**
 * The classification of raw command results: `systemctl is-active` for the
 * failover daemon and for the resolver, `ip addr show` for the virtual IP,
 * and the `dig` health probe. Running the commands is not modelled; each
 * function receives what the run produced.
 */
module SystemProbe {
  import opened Wrappers
  import opened TextOps

  /** What running one command produced: its exit code and captured output, or an exception (not found, timed out, ...). */
  datatype Execution = Exited(code: int, stdout: string, stderr: string) | Raised

  /**
   * The exceptions the probes let through: `CalledProcessError` for a
   * non-zero exit under `check=True`, and any other exception, which no
   * caller of these probes catches.
   */
  datatype Failure = CalledProcessError(argv: seq<string>, returncode: int) | Uncaught

  /** `(status, stdout, stderr)` of `get_keepalived_status`. */
  datatype DaemonStatus = DaemonStatus(status: string, stdout: string, stderr: string)

  /** `(ok, duration, answer)` of `test_dns`. */
  datatype DnsProbe = DnsProbe(ok: bool, timeMs: int, answer: string)

  /** The exit code with which `systemctl is-active` reports an inactive unit. */
  const InactiveExitCode: int := 3

  const StatusArgv: seq<string> := ["systemctl", "is-active", "keepalived"]
  const FtlArgv: seq<string> := ["systemctl", "is-active", "pihole-FTL"]
  const DigArgv: seq<string> := ["dig", "@127.0.0.1", "google.com", "+time=2", "+short"]

  function IpArgv(iface: string): seq<string> {
    ["ip", "addr", "show", iface]
  }

  /**
   * `get_keepalived_status`: exit 0 reports the unit's own answer; exit 3 is
   * an inactive unit with empty output; every other exit is raised.
   */
  function KeepalivedStatus(e: Execution): (r: Result<DaemonStatus, Failure>)
    ensures e.Exited? && e.code == 0 ==>
      r == Ok(DaemonStatus(Trim(e.stdout), Trim(e.stdout), Trim(e.stderr)))
    ensures e.Exited? && e.code == InactiveExitCode ==> r == Ok(DaemonStatus("inactive", "", ""))
    ensures e.Exited? && e.code != 0 && e.code != InactiveExitCode ==>
      r == Err(CalledProcessError(StatusArgv, e.code))
    ensures e.Raised? ==> r == Err(Uncaught)
  {
    match e
    case Raised => Err(Uncaught)
    case Exited(code, out, err) =>
      if code == 0 then Ok(DaemonStatus(Trim(out), Trim(out), Trim(err)))
      else if code == InactiveExitCode then Ok(DaemonStatus("inactive", "", ""))
      else Err(CalledProcessError(StatusArgv, code))
  }

  /**
   * `get_vip_assigned`: whether the virtual IP occurs as a substring of the
   * address listing; a failed listing is raised, never reported as `false`.
   */
  function VipAssigned(vip: string, argv: seq<string>, e: Execution): (r: Result<bool, Failure>)
    ensures r.Ok? <==> e.Exited? && e.code == 0
    ensures r.Ok? ==> (r.value <==> exists i :: OccursAt(e.stdout, vip, i))
    ensures e.Exited? && e.code != 0 ==> r == Err(CalledProcessError(argv, e.code))
    ensures e.Raised? ==> r == Err(Uncaught)
  {
    match e
    case Raised => Err(Uncaught)
    case Exited(code, out, _) =>
      ContainsIff(out, vip);
      if code != 0 then Err(CalledProcessError(argv, code)) else Ok(Contains(out, vip))
  }

  /** `determine_mode`: the node is MASTER exactly when it holds the virtual IP. */
  function DetermineMode(vipAssigned: bool): (mode: string)
    ensures mode == "MASTER" <==> vipAssigned
    ensures mode == "BACKUP" <==> !vipAssigned
  {
    if vipAssigned then "MASTER" else "BACKUP"
  }

  /**
   * `check_ftl_status`: the stripped answer of `systemctl is-active`
   * whatever its exit code (`check=False`), or "error" if the command could
   * not run.
   */
  function FtlStatus(e: Execution): (status: string)
    ensures e.Exited? ==> status == Trim(e.stdout)
    ensures e.Raised? ==> status == "error"
  {
    match e
    case Raised => "error"
    case Exited(_, out, _) => Trim(out)
  }

  /** The one failure result of the DNS probe. */
  const DnsFailed: DnsProbe := DnsProbe(false, -1, "")

  /**
   * `test_dns`: success needs exit 0 and a non-empty stripped answer, and
   * then carries the measured duration and the answer; every other outcome,
   * a timeout or other exception included, is `DnsFailed`.
   */
  function TestDns(e: Execution, durationMs: int): (r: DnsProbe)
    ensures r.ok <==> e.Exited? && e.code == 0 && Trim(e.stdout) != ""
    ensures r.ok ==> r == DnsProbe(true, durationMs, Trim(e.stdout))
    ensures !r.ok ==> r == DnsFailed
  {
    match e
    case Raised => DnsFailed
    case Exited(code, out, _) =>
      if code == 0 then
        var answer := Trim(out);
        if answer != "" then DnsProbe(true, durationMs, answer) else DnsFailed
      else DnsFailed
  }
}
