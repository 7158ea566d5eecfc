/** Properties of the probe classification. */
module SystemProbeFacts {
  import opened Wrappers
  import opened TextOps
  import opened SystemProbe

  /**
   * The VIP test is a plain substring test, not an address comparison:
   * "10.0.0.1" counts as bound when only "10.0.0.100" is.
   */
  lemma VipTestMatchesLongerAddress()
    ensures VipAssigned("10.0.0.1", IpArgv("eth0"), Exited(0, "inet 10.0.0.100/24 scope global eth0", "")) == Ok(true)
  {
    var out := "inet 10.0.0.100/24 scope global eth0";
    var pre, vip, post := "inet ", "10.0.0.1", "00/24 scope global eth0";
    assert out == pre + vip + post;
    assert (pre + vip + post)[|pre|..|pre| + |vip|] == vip;
    assert OccursAt(out, vip, 5);
  }

  /** The mode is a function of the VIP test alone and tells it back. */
  lemma ModeReflectsVip(a: bool, b: bool)
    ensures DetermineMode(a) == DetermineMode(b) <==> a == b
  {
  }

  /**
   * Only exits 0 and 3 of `systemctl is-active keepalived` are answers; an
   * exit-3 answer is always "inactive" with empty output.
   */
  lemma StatusExitCodes(e: Execution)
    ensures KeepalivedStatus(e).Ok? <==> e.Exited? && (e.code == 0 || e.code == InactiveExitCode)
    ensures KeepalivedStatus(e).Ok? && e.code != 0 ==> KeepalivedStatus(e).value == DaemonStatus("inactive", "", "")
  {
  }

  /**
   * A non-zero exit, an empty answer and a timeout give one and the same
   * probe result.
   */
  lemma DnsFailuresCollapse(code: int, out: string, err: string, out2: string, err2: string, d1: int, d2: int, d3: int)
    requires code != 0 && Trim(out2) == ""
    ensures TestDns(Exited(code, out, err), d1) == TestDns(Exited(0, out2, err2), d2) == TestDns(Raised, d3) == DnsFailed
  {
  }

  /** With a non-negative duration, the latency field alone tells success from failure. */
  lemma DnsLatencyMarksFailure(e: Execution, durationMs: int)
    requires durationMs >= 0
    ensures TestDns(e, durationMs).ok <==> TestDns(e, durationMs).timeMs >= 0
  {
  }

  /** A successful probe's answer is stripped and non-empty. */
  lemma DnsAnswerIsStripped(e: Execution, durationMs: int)
    requires TestDns(e, durationMs).ok
    ensures var a := TestDns(e, durationMs).answer; a != [] && Trim(a) == a
  {
    TrimIdempotent(e.stdout);
  }
}
