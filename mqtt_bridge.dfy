/**
 * The publish-subscribe side: topic names derived from the configured
 * device name, the full status payload, and the handling of a command
 * message. The broker connection and `publish` itself are not modelled: an
 * operation returns what it would publish.
 */
module MqttBridge {
  import opened Wrappers
  import opened TextOps
  import opened SystemProbe
  import opened StatusApi

  predicate IsAsciiAlnum(c: char) {
    ('a' <= c <= 'z') || ('A' <= c <= 'Z') || ('0' <= c <= '9')
  }

  function SanitizeChar(c: char): char {
    if IsAsciiAlnum(c) then c else '_'
  }

  /** `sanitize_topic_name`: `re.sub(r'[^a-zA-Z0-9]', '_', name)`, one character at a time. */
  function SanitizeTopicName(name: string): (r: string)
    ensures |r| == |name|
    ensures forall i :: 0 <= i < |name| ==> r[i] == SanitizeChar(name[i])
  {
    if name == [] then []
    else
      var rest := SanitizeTopicName(name[1..]);
      assert forall i :: 1 <= i < |name| ==> ([SanitizeChar(name[0])] + rest)[i] == rest[i - 1];
      [SanitizeChar(name[0])] + rest
  }

  /**
   * The device id used in every topic: the sanitised name, lower-cased,
   * character by character. It uses only lower-case ASCII letters, digits
   * and `_`.
   */
  function UniqueId(mqttName: string): (r: string)
    ensures |r| == |mqttName|
    ensures forall i :: 0 <= i < |r| ==> r[i] == LowerChar(SanitizeChar(mqttName[i]))
    ensures forall i :: 0 <= i < |r| ==> ('a' <= r[i] <= 'z') || ('0' <= r[i] <= '9') || r[i] == '_'
  {
    LowerAt(SanitizeTopicName(mqttName));
    Lower(SanitizeTopicName(mqttName))
  }

  /** The prefix of the command topics; the action is what follows it. The device id sits at a fixed place in it. */
  function CommandTopicBase(mqttName: string): (r: string)
    ensures |r| == |mqttName| + 37
    ensures r[21..|r| - 16] == UniqueId(mqttName)
  {
    var uid := UniqueId(mqttName);
    var r := "homeassistant/button/" + uid + "/set_keepalived/";
    assert r[21..|r| - 16] == uid;
    r
  }

  /**
   * The state topic as the command handler and the discovery message spell
   * it. The device id sits at a fixed place in it, and it is never a command
   * topic, so the handler ignores its own publishes.
   */
  function StateTopic(mqttName: string): (r: string)
    ensures |r| == |mqttName| + 45
    ensures r[21..|r| - 24] == UniqueId(mqttName)
    ensures !StartsWith(r, CommandTopicBase(mqttName))
  {
    var uid := UniqueId(mqttName);
    var r := "homeassistant/sensor/" + uid + "_keepalived_status/state";
    assert r[21..|r| - 24] == uid;
    assert r[14] == 's' && CommandTopicBase(mqttName)[14] == 'b';
    r
  }

  /** The state topic as the periodic publisher spells it, a base topic with `/state` appended: the topic the command handler publishes on. */
  function PublishTopic(mqttName: string): (r: string)
    ensures r == StateTopic(mqttName)
  {
    var baseTopic := "homeassistant/sensor/" + UniqueId(mqttName) + "_keepalived_status";
    assert "_keepalived_status" + "/state" == "_keepalived_status/state";
    baseTopic + "/state"
  }

  /**
   * The command topic the discovery message announces for a button: the
   * base without its slash, then `/` and the action. It is the handler's
   * command prefix followed by the action, so the handler reads that action
   * back.
   */
  function DiscoveredCommandTopic(mqttName: string, action: string): (r: string)
    ensures r == CommandTopicBase(mqttName) + action
    ensures ActionFromTopic(mqttName, r) == Some(action)
  {
    var baseCommandTopic := "homeassistant/button/" + UniqueId(mqttName) + "/set_keepalived";
    var r := baseCommandTopic + "/" + action;
    var base := CommandTopicBase(mqttName);
    assert "/set_keepalived" + "/" == "/set_keepalived/";
    assert r == base + action;
    assert r[|base|..] == action;
    r
  }

  /** The twelve-field payload from the live facts, for one action and the output to report. */
  function FullPayload(settings: Settings, action: string, p: Probe, ftl: string, dns: DnsProbe,
                       stdout: string, stderr: string): (r: FullStatus)
    ensures r.action == action && r.keepalivedStatus == p.daemon.status
    ensures r.keepalivedMode == DetermineMode(p.vipAssigned) && r.vipAssigned == p.vipAssigned
    ensures r.configuredMode == settings.configuredMode && r.configuredVip == settings.virtualIp
    ensures r.ftlServiceStatus == ftl
    ensures r.dnsQueryOk == dns.ok && r.dnsResponseTimeMs == dns.timeMs && r.dnsResponse == dns.answer
    ensures r.stdout == stdout && r.stderr == stderr
  {
    FullStatus(action, p.daemon.status, settings.configuredMode, DetermineMode(p.vipAssigned),
               settings.virtualIp, p.vipAssigned, ftl, dns.ok, dns.timeMs, dns.answer, stdout, stderr)
  }

  /**
   * `publish_full_status`: the probes, then the resolver status and the DNS
   * probe, which never fail. An exception of the probes propagates to the
   * caller and nothing is published.
   */
  function PublishFullStatus(settings: Settings, run: Runner, durationMs: int): (r: Traced<Result<FullStatus, Failure>>)
    ensures r.value.Ok? <==> ProbeKeepalived(settings, run).value.Ok?
    ensures r.value.Err? ==> r.ran == ProbeKeepalived(settings, run).ran
    ensures r.value.Ok? ==>
      var p := ProbeKeepalived(settings, run).value.value;
      r.ran == ProbeKeepalived(settings, run).ran + [FtlArgv, DigArgv] &&
      r.value.value == FullStatus("status", p.daemon.status, settings.configuredMode,
                                  DetermineMode(p.vipAssigned), settings.virtualIp, p.vipAssigned,
                                  FtlStatus(run(FtlArgv)), TestDns(run(DigArgv), durationMs).ok,
                                  TestDns(run(DigArgv), durationMs).timeMs,
                                  TestDns(run(DigArgv), durationMs).answer,
                                  p.daemon.stdout, p.daemon.stderr)
  {
    var probe := ProbeKeepalived(settings, run);
    match probe.value
    case Err(f) => Traced(Err(f), probe.ran)
    case Ok(p) =>
      var ftl := FtlStatus(run(FtlArgv));
      var dns := TestDns(run(DigArgv), durationMs);
      Traced(Ok(FullPayload(settings, "status", p, ftl, dns, p.daemon.stdout, p.daemon.stderr)),
             probe.ran + [FtlArgv, DigArgv])
  }

  /** The action named by a command topic: everything after the command prefix, unchecked. */
  function ActionFromTopic(mqttName: string, topic: string): (r: Option<string>)
    ensures r.Some? <==> StartsWith(topic, CommandTopicBase(mqttName))
    ensures r.Some? ==> topic == CommandTopicBase(mqttName) + r.value
  {
    var base := CommandTopicBase(mqttName);
    if StartsWith(topic, base) then Some(topic[|base|..]) else None
  }

  datatype MqttPayload = StatusPayload(status: FullStatus) | ErrorPayload(cause: Failure)

  /** What one incoming message leads to: nothing, one retained publish, or an exception out of the callback. */
  datatype MqttOutcome = Ignored | Publish(topic: string, payload: MqttPayload) | Crashed

  /**
   * `on_mqtt_message`: a message on a command topic runs
   * `systemctl <action> keepalived` for whatever action the topic names,
   * then publishes the full status with the action command's own stripped
   * output; a `CalledProcessError` on the way is published as an error
   * payload on the same topic.
   */
  function OnMqttMessage(settings: Settings, mqttName: string, topic: string, run: Runner,
                         durationMs: int): (r: Traced<MqttOutcome>)
    ensures r.value.Ignored? <==> ActionFromTopic(mqttName, topic).None?
    ensures r.value.Ignored? ==> r.ran == []
    ensures r.value.Publish? ==> r.value.topic == StateTopic(mqttName)
  {
    match ActionFromTopic(mqttName, topic)
    case None => Traced(Ignored, [])
    case Some(action) =>
      var argv := ActionArgv(action);
      var state := StateTopic(mqttName);
      match run(argv)
      case Raised => Traced(Crashed, [argv])
      case Exited(code, out, err) =>
        if code != 0 then Traced(Publish(state, ErrorPayload(CalledProcessError(argv, code))), [argv])
        else
          var probe := ProbeKeepalived(settings, run);
          match probe.value
          case Err(f) =>
            Traced(if f.CalledProcessError? then Publish(state, ErrorPayload(f)) else Crashed, [argv] + probe.ran)
          case Ok(p) =>
            var ftl := FtlStatus(run(FtlArgv));
            var dns := TestDns(run(DigArgv), durationMs);
            Traced(Publish(state, StatusPayload(FullPayload(settings, action, p, ftl, dns, Trim(out), Trim(err)))),
                   [argv] + probe.ran + [FtlArgv, DigArgv])
  }
}
