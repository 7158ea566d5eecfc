/**
 * The values the API derives at start-up from the parsed configuration,
 * the two status payloads, and the status, control and publish operations,
 * each over an oracle `run` that stands for `subprocess.run`: it maps a
 * command line to what executing it produced. Every operation also returns
 * the command lines it ran, in order.
 */
module StatusApi {
  import opened Wrappers
  import opened TextOps
  import opened KeepalivedConfig
  import opened SystemProbe

  type Runner = seq<string> -> Execution

  /** The module-level values taken from the parsed file. */
  datatype Settings = Settings(configuredMode: Option<string>, iface: Option<string>, virtualIp: string)

  /** How start-up ends: with the settings, with `sys.exit(1)` after a parse error, or with the IndexError of an empty VIP list. */
  datatype Startup = Started(settings: Settings) | ExitOnParseError(message: string) | NoVipIndexError

  /**
   * Start-up: a failed parse ends the process; otherwise the configured
   * mode and interface are the parsed values as they are (`None` when the
   * file has no such line: the keys always exist, so the `.get` fallbacks
   * never apply) and the virtual IP is the first VIP, where an empty list
   * raises IndexError.
   */
  function StartUp(parsed: ParseOutcome): (r: Startup)
    ensures parsed.Failed? <==> r.ExitOnParseError?
    ensures parsed.Failed? ==> r.message == parsed.message
    ensures r.NoVipIndexError? <==> parsed.Parsed? && parsed.config.vips == []
    ensures r.Started? ==>
      parsed.Parsed? && |parsed.config.vips| > 0 &&
      r.settings == Settings(parsed.config.state, parsed.config.iface, parsed.config.vips[0])
  {
    match parsed
    case Failed(m) => ExitOnParseError(m)
    case Parsed(c) =>
      if c.vips == [] then NoVipIndexError else Started(Settings(c.state, c.iface, c.vips[0]))
  }

  /** The seven-field reply of the HTTP status and control routes. */
  datatype StatusReply = StatusReply(
    action: string,
    keepalivedStatus: string,
    keepalivedMode: string,
    configuredVip: string,
    vipAssigned: bool,
    stdout: string,
    stderr: string)

  /** The twelve-field payload published on the state topic. */
  datatype FullStatus = FullStatus(
    action: string,
    keepalivedStatus: string,
    configuredMode: Option<string>,
    keepalivedMode: string,
    configuredVip: string,
    vipAssigned: bool,
    ftlServiceStatus: string,
    dnsQueryOk: bool,
    dnsResponseTimeMs: int,
    dnsResponse: string,
    stdout: string,
    stderr: string)

  /**
   * What a route sends back: the reply; a JSON `{"error": ...}` with its
   * HTTP code, carrying either the exception or a fixed message; or Flask's
   * own 500 page for an exception the route does not catch.
   */
  datatype HttpReply =
    | Success(reply: StatusReply)
    | JsonError(code: int, cause: Failure)
    | Rejected(code: int, message: string)
    | ServerError

  /** The live facts every snapshot starts from. */
  datatype Probe = Probe(daemon: DaemonStatus, vipAssigned: bool)

  /** A route's answer together with the command lines it ran, in order. */
  datatype Traced<T> = Traced(value: T, ran: seq<seq<string>>)

  /** `compose_response`: the reply for one action, with the mode derived from the VIP test. */
  function ComposeResponse(settings: Settings, action: string, status: string, vipAssigned: bool,
                           stdout: string, stderr: string): (r: StatusReply)
    ensures r.action == action && r.keepalivedStatus == status
    ensures r.keepalivedMode == DetermineMode(vipAssigned) && r.vipAssigned == vipAssigned
    ensures r.configuredVip == settings.virtualIp
    ensures r.stdout == stdout && r.stderr == stderr
  {
    StatusReply(action, status, DetermineMode(vipAssigned), settings.virtualIp, vipAssigned, stdout, stderr)
  }

  /**
   * `get_keepalived_status` followed by `get_vip_assigned`: the daemon is
   * always asked first, and the address listing is not run when that
   * fails. With no configured interface the listing's argument is `None`,
   * which `subprocess.run` rejects with a TypeError before running anything.
   */
  function ProbeKeepalived(settings: Settings, run: Runner): (r: Traced<Result<Probe, Failure>>)
    ensures |r.ran| >= 1 && r.ran[0] == StatusArgv
    ensures KeepalivedStatus(run(StatusArgv)).Err? ==>
      r == Traced(Err(KeepalivedStatus(run(StatusArgv)).error), [StatusArgv])
    ensures r.value.Ok? <==>
      KeepalivedStatus(run(StatusArgv)).Ok? && settings.iface.Some? &&
      VipAssigned(settings.virtualIp, IpArgv(settings.iface.value), run(IpArgv(settings.iface.value))).Ok?
    ensures r.value.Ok? ==>
      r.ran == [StatusArgv, IpArgv(settings.iface.value)] &&
      r.value.value == Probe(KeepalivedStatus(run(StatusArgv)).value,
                             Contains(run(IpArgv(settings.iface.value)).stdout, settings.virtualIp))
    ensures KeepalivedStatus(run(StatusArgv)).Ok? && settings.iface.None? ==>
      r == Traced(Err(Uncaught), [StatusArgv])
    ensures KeepalivedStatus(run(StatusArgv)).Ok? && settings.iface.Some? ==>
      var argv := IpArgv(settings.iface.value);
      VipAssigned(settings.virtualIp, argv, run(argv)).Err? ==>
        r == Traced(Err(VipAssigned(settings.virtualIp, argv, run(argv)).error), [StatusArgv, argv])
  {
    match KeepalivedStatus(run(StatusArgv))
    case Err(f) => Traced(Err(f), [StatusArgv])
    case Ok(daemon) =>
      match settings.iface
      case None => Traced(Err(Uncaught), [StatusArgv])
      case Some(iface) =>
        var argv := IpArgv(iface);
        match VipAssigned(settings.virtualIp, argv, run(argv))
        case Err(f) => Traced(Err(f), [StatusArgv, argv])
        case Ok(b) => Traced(Ok(Probe(daemon, b)), [StatusArgv, argv])
  }

  /** How a route answers an exception: `CalledProcessError` as a JSON 500, anything else left to Flask. */
  function ErrorReply(f: Failure): (r: HttpReply)
    ensures f.CalledProcessError? ==> r == JsonError(500, f)
    ensures f.Uncaught? ==> r == ServerError
  {
    if f.CalledProcessError? then JsonError(500, f) else ServerError
  }

  /** GET `/keepalived/status`: the probes' facts with the status query's own output. */
  function StatusRoute(settings: Settings, run: Runner): (r: Traced<HttpReply>)
    ensures r.ran == ProbeKeepalived(settings, run).ran
    ensures r.value.Success? <==> ProbeKeepalived(settings, run).value.Ok?
    ensures r.value.Success? ==>
      var p := ProbeKeepalived(settings, run).value.value;
      r.value.reply == StatusReply("status", p.daemon.status, DetermineMode(p.vipAssigned),
                                   settings.virtualIp, p.vipAssigned, p.daemon.stdout, p.daemon.stderr)
    ensures !r.value.Success? ==> r.value == ErrorReply(ProbeKeepalived(settings, run).value.error)
  {
    var probe := ProbeKeepalived(settings, run);
    match probe.value
    case Err(f) => Traced(ErrorReply(f), probe.ran)
    case Ok(p) =>
      Traced(Success(ComposeResponse(settings, "status", p.daemon.status, p.vipAssigned,
                                     p.daemon.stdout, p.daemon.stderr)), probe.ran)
  }

  /** The actions the HTTP control route accepts. */
  const Actions: seq<string> := ["start", "stop", "restart"]

  /** The command line of an action; only the action `is-active` turns it into the status query. */
  function ActionArgv(action: string): (argv: seq<string>)
    ensures |argv| == 3 && argv[1] == action
    ensures argv == StatusArgv <==> action == "is-active"
  {
    ["systemctl", action, "keepalived"]
  }

  /**
   * `/keepalived/<action>`: an action outside `Actions` is refused with 400
   * before anything runs; otherwise the action is run, and on success the
   * probes are run and the reply carries the probes' status and VIP test but
   * the action command's own stripped output.
   */
  function Control(settings: Settings, action: string, run: Runner): (r: Traced<HttpReply>)
    ensures action !in Actions <==> r.ran == []
    ensures action !in Actions ==> r.value == Rejected(400, "Invalid action")
    ensures action in Actions ==> r.ran[0] == ActionArgv(action)
    ensures action in Actions && run(ActionArgv(action)).Raised? ==> r == Traced(ServerError, [ActionArgv(action)])
    ensures action in Actions && run(ActionArgv(action)).Exited? && run(ActionArgv(action)).code != 0 ==>
      r == Traced(JsonError(500, CalledProcessError(ActionArgv(action), run(ActionArgv(action)).code)), [ActionArgv(action)])
    ensures action in Actions && run(ActionArgv(action)).Exited? && run(ActionArgv(action)).code == 0 ==>
      r.ran == [ActionArgv(action)] + ProbeKeepalived(settings, run).ran &&
      (r.value.Success? <==> ProbeKeepalived(settings, run).value.Ok?) &&
      (ProbeKeepalived(settings, run).value.Err? ==> r.value == ErrorReply(ProbeKeepalived(settings, run).value.error))
  {
    if action !in Actions then Traced(Rejected(400, "Invalid action"), [])
    else
      var argv := ActionArgv(action);
      match run(argv)
      case Raised => Traced(ServerError, [argv])
      case Exited(code, out, err) =>
        if code != 0 then Traced(JsonError(500, CalledProcessError(argv, code)), [argv])
        else
          var probe := ProbeKeepalived(settings, run);
          match probe.value
          case Err(f) => Traced(ErrorReply(f), [argv] + probe.ran)
          case Ok(p) =>
            Traced(Success(ComposeResponse(settings, action, p.daemon.status, p.vipAssigned, Trim(out), Trim(err))),
                   [argv] + probe.ran)
  }
}
