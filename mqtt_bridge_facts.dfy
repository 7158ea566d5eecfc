/** Properties of the topic names and of the command handler. */
module MqttBridgeFacts {
  import opened Wrappers
  import opened TextOps
  import opened SystemProbe
  import opened StatusApi
  import opened MqttBridge

  /** The sanitised name uses only ASCII letters, digits and `_`, and keeps every ASCII letter and digit where it was. */
  lemma SanitizeAlphabet(name: string)
    ensures |SanitizeTopicName(name)| == |name|
    ensures forall i :: 0 <= i < |name| ==>
      var c := SanitizeTopicName(name)[i];
      (IsAsciiAlnum(c) || c == '_') &&
      (IsAsciiAlnum(name[i]) ==> c == name[i]) &&
      (!IsAsciiAlnum(name[i]) ==> c == '_')
  {
  }

  /** Sanitising twice changes nothing more. */
  lemma {:induction false} SanitizeIdempotent(name: string)
    ensures SanitizeTopicName(SanitizeTopicName(name)) == SanitizeTopicName(name)
  {
    if name != [] {
      var s := SanitizeTopicName(name);
      assert s[0] == SanitizeChar(name[0]) && s[1..] == SanitizeTopicName(name[1..]);
      SanitizeIdempotent(name[1..]);
    }
  }

  /** A command topic names exactly the action appended to the command prefix. */
  lemma CommandTopicRoundTrip(mqttName: string, action: string)
    ensures ActionFromTopic(mqttName, CommandTopicBase(mqttName) + action) == Some(action)
  {
    var base := CommandTopicBase(mqttName);
    assert StartsWith(base + action, base);
    assert (base + action)[|base|..] == action;
  }

  /**
   * The command handler has no whitelist: any action named by a command
   * topic is handed to `systemctl`, including one the HTTP control route
   * refuses without running anything.
   */
  lemma CommandHandlerRunsAnyAction(settings: Settings, mqttName: string, action: string, run: Runner, durationMs: int)
    ensures var r := OnMqttMessage(settings, mqttName, CommandTopicBase(mqttName) + action, run, durationMs);
      |r.ran| >= 1 && r.ran[0] == ActionArgv(action)
    ensures action !in Actions ==> Control(settings, action, run).ran == []
  {
    CommandTopicRoundTrip(mqttName, action);
  }

  /** The concrete case: `reload` is refused over HTTP and run over MQTT. */
  lemma ReloadOnlyOverMqtt(settings: Settings, mqttName: string, run: Runner, durationMs: int)
    ensures Control(settings, "reload", run).value == Rejected(400, "Invalid action")
    ensures OnMqttMessage(settings, mqttName, CommandTopicBase(mqttName) + "reload", run, durationMs).ran[0]
            == ["systemctl", "reload", "keepalived"]
  {
    assert "reload" != Actions[0] && "reload" != Actions[1] && "reload" != Actions[2];
    CommandHandlerRunsAnyAction(settings, mqttName, "reload", run, durationMs);
  }

  /**
   * A successful command publishes the full status with the action's name
   * and the action command's own stripped output, while the status, mode
   * and VIP test come from the probes run after it.
   */
  lemma CommandPayloadCarriesActionOutput(settings: Settings, mqttName: string, action: string, run: Runner,
                                          durationMs: int, out: string, err: string)
    requires run(ActionArgv(action)) == Exited(0, out, err)
    requires ProbeKeepalived(settings, run).value.Ok?
    ensures var r := OnMqttMessage(settings, mqttName, CommandTopicBase(mqttName) + action, run, durationMs);
      var p := ProbeKeepalived(settings, run).value.value;
      r.value == Publish(StateTopic(mqttName), StatusPayload(
        FullStatus(action, p.daemon.status, settings.configuredMode, DetermineMode(p.vipAssigned),
                   settings.virtualIp, p.vipAssigned, FtlStatus(run(FtlArgv)),
                   TestDns(run(DigArgv), durationMs).ok, TestDns(run(DigArgv), durationMs).timeMs,
                   TestDns(run(DigArgv), durationMs).answer, Trim(out), Trim(err))))
  {
    CommandTopicRoundTrip(mqttName, action);
  }

  /** A failing command or probe exit is published as an error payload; an exception of another kind escapes the handler. */
  lemma CommandFailureOutcome(settings: Settings, mqttName: string, action: string, run: Runner, durationMs: int)
    ensures var r := OnMqttMessage(settings, mqttName, CommandTopicBase(mqttName) + action, run, durationMs);
      (run(ActionArgv(action)).Exited? && run(ActionArgv(action)).code != 0 ==>
         r.value == Publish(StateTopic(mqttName), ErrorPayload(CalledProcessError(ActionArgv(action), run(ActionArgv(action)).code)))) &&
      (run(ActionArgv(action)).Raised? ==> r.value == Crashed) &&
      (run(ActionArgv(action)).Exited? && run(ActionArgv(action)).code == 0 &&
       ProbeKeepalived(settings, run).value.Err? ==>
         r.value == (if ProbeKeepalived(settings, run).value.error.CalledProcessError?
                     then Publish(StateTopic(mqttName), ErrorPayload(ProbeKeepalived(settings, run).value.error))
                     else Crashed))
  {
    CommandTopicRoundTrip(mqttName, action);
  }

  /**
   * For an action both paths accept, the HTTP control reply and the MQTT
   * command payload agree on every field they share.
   */
  lemma ControlAndCommandAgree(settings: Settings, mqttName: string, action: string, run: Runner, durationMs: int)
    requires action in Actions
    ensures var h := Control(settings, action, run).value;
      var m := OnMqttMessage(settings, mqttName, CommandTopicBase(mqttName) + action, run, durationMs).value;
      (h.Success? <==> m.Publish? && m.payload.StatusPayload?) &&
      (h.Success? ==>
         var s := m.payload.status;
         h.reply == StatusReply(s.action, s.keepalivedStatus, s.keepalivedMode, s.configuredVip,
                                s.vipAssigned, s.stdout, s.stderr))
  {
    CommandTopicRoundTrip(mqttName, action);
  }

  /** A topic outside the command prefix is ignored without running anything. */
  lemma OtherTopicsIgnored(settings: Settings, mqttName: string, topic: string, run: Runner, durationMs: int)
    requires !StartsWith(topic, CommandTopicBase(mqttName))
    ensures OnMqttMessage(settings, mqttName, topic, run, durationMs) == Traced(Ignored, [])
  {
  }
}
