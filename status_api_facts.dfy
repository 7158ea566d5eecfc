/** Properties of start-up and of the HTTP routes. */
module StatusApiFacts {
  import opened Wrappers
  import opened TextOps
  import opened KeepalivedConfig
  import opened KeepalivedConfigFacts
  import opened SystemProbe
  import opened StatusApi

  /** The virtual IP the API reports is the stripped text of some line of the file, never empty and never a comment. */
  lemma VirtualIpIsFileEntry(lines: seq<string>)
    requires StartUp(Parse(Lines(lines))).Started?
    ensures var vip := StartUp(Parse(Lines(lines))).settings.virtualIp;
      vip != [] && !StartsWith(vip, "#") && exists i :: 0 <= i < |lines| && vip == Trim(lines[i])
  {
    RunVipsFromLines(Initial, lines);
    var vs := Run(Initial, lines).value.data.vips;
    assert Initial.data.vips == [] && 0 < |vs|;
  }

  /** An unreadable file ends start-up with its error message. */
  lemma UnreadableFileExits(message: string)
    ensures StartUp(Parse(Unreadable(message))) == ExitOnParseError(message)
  {
  }

  /**
   * The status route answers exactly when the daemon query exits 0 or 3,
   * an interface is configured and the address listing exits 0.
   */
  lemma StatusRouteSucceeds(settings: Settings, run: Runner)
    ensures StatusRoute(settings, run).value.Success? <==>
      run(StatusArgv).Exited? && (run(StatusArgv).code == 0 || run(StatusArgv).code == InactiveExitCode) &&
      settings.iface.Some? &&
      run(IpArgv(settings.iface.value)).Exited? && run(IpArgv(settings.iface.value)).code == 0
  {
  }

  /**
   * Any other exit of the daemon query is answered with a JSON 500 that
   * names the query and its code, and the address listing is not run.
   */
  lemma StatusQueryFailure(settings: Settings, run: Runner, code: int, out: string, err: string)
    requires run(StatusArgv) == Exited(code, out, err) && code != 0 && code != InactiveExitCode
    ensures StatusRoute(settings, run) == Traced(JsonError(500, CalledProcessError(StatusArgv, code)), [StatusArgv])
  {
  }

  /**
   * When the daemon answers but the address listing exits non-zero, the
   * route answers with a JSON 500 naming the `ip` command and its code,
   * after running both commands.
   */
  lemma ListingFailure(settings: Settings, run: Runner, iface: string, code: int, out: string, err: string)
    requires KeepalivedStatus(run(StatusArgv)).Ok?
    requires settings.iface == Some(iface) && run(IpArgv(iface)) == Exited(code, out, err) && code != 0
    ensures StatusRoute(settings, run) ==
      Traced(JsonError(500, CalledProcessError(IpArgv(iface), code)), [StatusArgv, IpArgv(iface)])
  {
  }

  /**
   * Without a configured interface the listing cannot even start: the
   * exception is not one the route catches, so Flask answers with its own
   * server error, and only the daemon query ran.
   */
  lemma MissingInterfaceCrashes(settings: Settings, run: Runner)
    requires KeepalivedStatus(run(StatusArgv)).Ok? && settings.iface.None?
    ensures StatusRoute(settings, run) == Traced(ServerError, [StatusArgv])
  {
  }

  /** An inactive daemon is still a successful status answer, with empty output. */
  lemma InactiveDaemonReported(settings: Settings, run: Runner, out: string, err: string)
    requires run(StatusArgv) == Exited(InactiveExitCode, out, err)
    requires settings.iface.Some? && run(IpArgv(settings.iface.value)).Exited? && run(IpArgv(settings.iface.value)).code == 0
    ensures var r := StatusRoute(settings, run).value;
      r.Success? && r.reply.keepalivedStatus == "inactive" && r.reply.stdout == "" && r.reply.stderr == ""
  {
  }

  /**
   * A successful control call carries the action command's stripped
   * output, but the daemon status and VIP test of the queries run after it;
   * the daemon query's own output is dropped.
   */
  lemma ControlReplyCarriesActionOutput(settings: Settings, action: string, run: Runner, out: string, err: string)
    requires action in Actions
    requires run(ActionArgv(action)) == Exited(0, out, err)
    requires ProbeKeepalived(settings, run).value.Ok?
    ensures var p := ProbeKeepalived(settings, run).value.value;
      Control(settings, action, run) ==
        Traced(Success(StatusReply(action, p.daemon.status, DetermineMode(p.vipAssigned), settings.virtualIp,
                                   p.vipAssigned, Trim(out), Trim(err))),
               [ActionArgv(action)] + ProbeKeepalived(settings, run).ran)
  {
  }

  /** A failing action is reported with its own command line and exit code, and nothing else runs. */
  lemma ControlActionFailure(settings: Settings, action: string, run: Runner, code: int, out: string, err: string)
    requires action in Actions
    requires run(ActionArgv(action)) == Exited(code, out, err) && code != 0
    ensures Control(settings, action, run) ==
      Traced(JsonError(500, CalledProcessError(["systemctl", action, "keepalived"], code)), [ActionArgv(action)])
  {
  }

  /** An allowed action whose command cannot run is left to Flask, and nothing else runs. */
  lemma ControlActionRaised(settings: Settings, action: string, run: Runner)
    requires action in Actions && run(ActionArgv(action)).Raised?
    ensures Control(settings, action, run) == Traced(ServerError, [ActionArgv(action)])
  {
  }

  /**
   * When the action succeeds but a query after it fails, the reply is that
   * query's error, after the action and the queries reached have run.
   */
  lemma ControlProbeFailure(settings: Settings, action: string, run: Runner, out: string, err: string)
    requires action in Actions && run(ActionArgv(action)) == Exited(0, out, err)
    requires ProbeKeepalived(settings, run).value.Err?
    ensures Control(settings, action, run) ==
      Traced(ErrorReply(ProbeKeepalived(settings, run).value.error),
             [ActionArgv(action)] + ProbeKeepalived(settings, run).ran)
  {
  }

  /** The whitelist is exactly start, stop and restart. */
  lemma ControlWhitelist(settings: Settings, action: string, run: Runner)
    ensures Control(settings, action, run).value.Rejected? <==>
      action != "start" && action != "stop" && action != "restart"
  {
  }
}
