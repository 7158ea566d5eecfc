# keepalived API for a Pi-hole pair — a Dafny model

`pihole/keepalived_api.py` is a small service that runs beside keepalived on
each of two Pi-hole hosts. It reads `keepalived.conf` once at start-up and then
does three things:

- it answers HTTP status and control requests for the keepalived unit;
- it publishes a twelve-field status document to an MQTT broker for Home
  Assistant;
- it accepts start/stop/restart commands over MQTT.

Whether a node is MASTER or BACKUP is decided by whether the configured
virtual IP appears in `ip addr show`. A watcher thread republishes the status
whenever the Pi-hole resolver's (`pihole-FTL`) unit status changes.

The model covers the deterministic logic of that file:

- `KeepalivedConfig`: the line-by-line parser for `keepalived.conf`. It is
  written twice. `Step` is a function describing one line and `Run` folds it
  over a file. `ParseKeepalivedConfig` is the imperative loop, with the two
  flags, the brace counter and the record it updates, and it is proved equal
  to `Parse`. `KeepalivedConfigFacts` proves what the parser does over all
  inputs. `KeepalivedConfigExamples` works three families of whole files through
  the parser.
- `SystemProbe`: how the results of `systemctl is-active`, `ip addr show`
  and `dig` are classified, and `determine_mode`.
- `StatusApi`: the values fixed at start-up, the seven-field HTTP reply, the
  status route and the control route with its action whitelist.
- `MqttBridge`: `sanitize_topic_name`, the topic names, the twelve-field
  payload of `publish_full_status`, and `on_mqtt_message`, which takes the
  action from the topic with no whitelist.
- `FtlWatcher`: the edge-triggered change detector of
  `publish_ftl_status_changes`, as a loop method over a finite sequence of
  polls.
- `TextOps`: the Python `str` operations the code uses. These are `strip()`
  and `split()` (over the full `str.isspace()` character set),
  `startswith()`, `count()`, ASCII `lower()`/`upper()` and the substring test
  `in`.

Running a command is modelled as a pure oracle `run: seq<string> -> Execution`.
An `Execution` is either an exit code with its captured stdout and stderr, or
an exception. Every route returns the command lines it ran, in order. That is
what lets the model state facts such as "an invalid action runs nothing".

Three behaviours of the code are easy to misread:

- The parser re-enters an instance on every `vrrp_instance` line. A later
  instance therefore overwrites the scalar fields and appends its VIPs, and
  nothing makes the first instance win.
- The VIP test is a plain substring test, so `10.0.0.1` counts as assigned
  when only `10.0.0.100` is bound.
- A file without VIPs makes start-up fail with an IndexError. The code never
  supplies a placeholder address, because the parser always sets the `vips`
  key.

## Model

| member | source | states |
|---|---|---|
| KeepalivedConfig.ParseKeepalivedConfig | pihole/keepalived_api.py:14-81 | The loop over the lines, with its flags, brace counter and record, returns exactly `Parse(file)`: the fold of `Step` from the initial state. An unreadable file gives its error message. |
| KeepalivedConfig.Parse | pihole/keepalived_api.py:14-81 | An unreadable file fails with its own error message. A readable one parses exactly when the fold of `Step` over its lines succeeds, and then gives the fold's record. A failure on a readable file is always the IndexError message. |
| KeepalivedConfig.Run | pihole/keepalived_api.py:31-79 | A fold stopped by a line fails with the IndexError message, the only error a line can raise. |
| KeepalivedConfig.Step | pihole/keepalived_api.py:31-79 | A line can fail only when it is a keyword line read inside an instance and outside its VIP block, never on a `vrrp_instance` line, and the failure is the IndexError message. |
| KeepalivedConfig.InstanceLine | pihole/keepalived_api.py:41-79 | A line inside an instance can fail only outside the VIP block, and then with the IndexError message. |
| KeepalivedConfig.KeywordLine | pihole/keepalived_api.py:62-79 | The keyword tests fail only with the IndexError message of `split()[1]`. |
| KeepalivedConfig.StepVrrp | pihole/keepalived_api.py:35-39 | From any state, a stripped line starting with `vrrp_instance` (case-sensitive) enters an instance. It resets the depth to that line's `{` count minus its `}` count and leaves the VIP flag and the record alone. |
| KeepalivedConfig.StepOutside | pihole/keepalived_api.py:35-41 | Outside an instance, every other line leaves the whole state unchanged. |
| KeepalivedConfig.StepClose | pihole/keepalived_api.py:41-48 | Inside an instance, a line that brings the depth to zero or below clears both flags and keeps the record. |
| KeepalivedConfig.StepVipOpen | pihole/keepalived_api.py:50-52 | Inside an instance, at positive depth, a `virtual_ipaddress` line opens the VIP block. |
| KeepalivedConfig.StepInVipBlock | pihole/keepalived_api.py:54-60 | Inside the VIP block, a line is handled as a VIP line and never as a keyword. |
| KeepalivedConfig.StepKeywordZone | pihole/keepalived_api.py:62-76 | Inside an instance and outside its VIP block, a line is handled by the keyword tests. |
| KeepalivedConfig.VipLine | pihole/keepalived_api.py:54-60 | Inside the VIP block, a line starting with `}` closes the block. Any other non-empty line not starting with `#` (keyword lines included) is appended to the VIPs. Nothing else in the state changes. |
| KeepalivedConfigFacts.KeywordFields | pihole/keepalived_api.py:62-76 | The keyword tests run in this order on the lower-cased line: `state `, `interface `, `virtual_router_id`, `priority`. The first that matches stores the line's second token: upper-cased for `state`, verbatim for the others. The field's earlier value plays no part, so a later line overwrites it. A missing token is the IndexError result, and any other line changes nothing. |
| KeepalivedConfigFacts.KeywordLineFailure | pihole/keepalived_api.py:70-79 | A keyword line fails exactly when it is a `virtual_router_id` or `priority` line with no second token, and the failure carries the IndexError message. |
| KeepalivedConfigFacts.SpacedKeywordHasValue | pihole/keepalived_api.py:62-68 | A line matched by `state ` or `interface ` (keyword plus space) always has a second token, so these branches never raise. |
| KeepalivedConfigFacts.KeywordLineFrame | pihole/keepalived_api.py:62-76 | A keyword line changes neither the flags, the depth nor the VIP list. |
| KeepalivedConfigFacts.StepVipsAppend | pihole/keepalived_api.py:31-76 | One line either leaves the VIP list unchanged or appends its own stripped text to the end. |
| KeepalivedConfigFacts.StepVipIsEntry | pihole/keepalived_api.py:54-60 | A line that adds a VIP was read inside the VIP block of an instance. It is non-empty and starts with neither `#` nor `}`. |
| KeepalivedConfigFacts.RunVipsGrow | pihole/keepalived_api.py:59 | Over any run, the VIP list only grows at its end: the earlier list stays a prefix. |
| KeepalivedConfigFacts.RunVipsFromLines | pihole/keepalived_api.py:31-60 | Every VIP a run adds is the stripped text of one of the file's lines, non-empty and not a comment. |
| KeepalivedConfigFacts.StepKeepsNested | pihole/keepalived_api.py:27-57 | One line keeps the invariant "inside the VIP block implies inside an instance". |
| KeepalivedConfigFacts.RunKeepsNested | pihole/keepalived_api.py:31-76 | That invariant holds after every line of every file. |
| KeepalivedConfigFacts.ParseEndsNested | pihole/keepalived_api.py:27-81 | A successful parse ends in a state where the invariant holds. |
| KeepalivedConfigFacts.ReenterAfterClose | pihole/keepalived_api.py:35-48 | After the closing line of an instance, a new `vrrp_instance` line enters an instance again with the record kept, so nothing makes the first instance win. |
| KeepalivedConfigFacts.RunAppend | pihole/keepalived_api.py:31-76 | Running two line sequences one after the other is running the first, then the second from where the first ended. |
| KeepalivedConfigExamples.VipBlockRun | pihole/keepalived_api.py:54-60 | From the state just after `virtual_ipaddress {` inside an instance (both flags set, depth 2), a run of entry lines appends every entry's stripped text to the VIP list, in file order, and leaves that state otherwise as it was. An entry line's stripped text is non-empty, not a comment, free of braces and starts with neither block keyword. |
| KeepalivedConfigExamples.WellFormedRun | pihole/keepalived_api.py:31-79 | Take a file whose stripped lines are `vrrp_instance <name> {`, then `state`, `interface`, `virtual_router_id` and `priority` lines, then `virtual_ipaddress {`, any number of VIP entries and two `}`. Each keyword line is the keyword, one blank and its value, and the name and values are single words without whitespace or braces. Such a file ends outside every block with each value read. |
| KeepalivedConfigExamples.WellFormedParse | pihole/keepalived_api.py:14-81 | Such a file, with any indentation, parses to exactly those values. The role is upper-cased, the other fields are verbatim, and the VIPs are all the entries, in file order. |
| KeepalivedConfigExamples.LaterInstanceOverrides | pihole/keepalived_api.py:35-64 | A second instance of any name that sets only the role (`vrrp_instance <name> {`, a `state` line of the same form, `}`), read after the first has closed, replaces the role and keeps every other field, VIPs included. |
| KeepalivedConfigExamples.BareKeywordFails | pihole/keepalived_api.py:70-79 | A `virtual_router_id` or `priority` line, in any case, with no value, read right after the line that opens an instance, turns the whole result into the IndexError result, whatever follows. |
| SystemProbe.KeepalivedStatus | pihole/keepalived_api.py:123-139 | Exit 0 gives (stripped stdout, stripped stdout, stripped stderr). Exit 3 gives ("inactive", "", ""). Any other exit is a CalledProcessError carrying the command and code, and an exception passes through. |
| SystemProbe.VipAssigned | pihole/keepalived_api.py:141-150 | The listing's result is available exactly on exit 0. It is true exactly when the VIP occurs at some index of stdout. A non-zero exit is raised again as a CalledProcessError with its command and code, and any other exception passes through uncaught. |
| SystemProbe.DetermineMode | pihole/keepalived_api.py:152-153 | The mode is "MASTER" exactly when the VIP is assigned and "BACKUP" exactly when it is not. |
| SystemProbe.FtlStatus | pihole/keepalived_api.py:302-310 | The resolver status is the stripped stdout whatever the exit code, and "error" when the command raised. |
| SystemProbe.TestDns | pihole/keepalived_api.py:312-330 | The probe succeeds exactly on exit 0 with a non-empty stripped answer, and then carries the duration and the answer. Every other outcome, exceptions included, is (False, -1, ""). |
| SystemProbeFacts.VipTestMatchesLongerAddress | pihole/keepalived_api.py:147 | "10.0.0.1" is reported assigned when the listing holds only "10.0.0.100". |
| SystemProbeFacts.ModeReflectsVip | pihole/keepalived_api.py:152-153 | Two modes are equal exactly when the two VIP tests are, so the mode tells the VIP test back. |
| SystemProbeFacts.StatusExitCodes | pihole/keepalived_api.py:129-138 | The daemon query answers exactly on exits 0 and 3, and an answer from a non-zero exit is always ("inactive", "", ""). |
| SystemProbeFacts.DnsFailuresCollapse | pihole/keepalived_api.py:321-330 | A non-zero exit, an empty answer and an exception give one and the same result. |
| SystemProbeFacts.DnsLatencyMarksFailure | pihole/keepalived_api.py:319-330 | For a non-negative measured duration, the latency field is non-negative exactly when the probe succeeded. |
| SystemProbeFacts.DnsAnswerIsStripped | pihole/keepalived_api.py:321-324 | A successful answer is non-empty and already stripped. |
| StatusApi.StartUp | pihole/keepalived_api.py:87-100 | A failed parse exits with its message, and an empty VIP list is the IndexError. Otherwise the configured mode and interface are the parsed values as they are (the `.get` fallbacks never apply) and the virtual IP is the first VIP. |
| StatusApi.ComposeResponse | pihole/keepalived_api.py:155-165 | Each of the seven fields comes from its input: action, status, VIP test, stdout and stderr as passed, the mode as `determine_mode` of the VIP test, and the configured VIP as the start-up VIP. |
| StatusApi.ProbeKeepalived | pihole/keepalived_api.py:141-171 | The daemon query always runs first. When it fails, its failure is the result and nothing else runs. With no interface configured the listing crashes with an uncaught error after the query alone. A failing listing gives the listing's own error, after exactly the two commands. The probe succeeds exactly when the query answers, an interface is configured and the listing exits 0. It then reports the query's answer and the substring test, having run exactly those two commands. |
| StatusApi.ErrorReply | pihole/keepalived_api.py:172-173 | A CalledProcessError becomes a JSON 500, and any other exception is Flask's own server error. |
| StatusApi.StatusRoute | pihole/keepalived_api.py:167-175 | The route runs what the probe runs. It succeeds exactly when the probe does, with the action "status" and the probe's status, mode, VIP test and output. Otherwise it gives the probe's failure as an error reply. |
| StatusApi.ActionArgv | pihole/keepalived_api.py:182-185 | The action command line has three words with the action second. It is the daemon query's command line exactly when the action is `is-active`. |
| StatusApi.Control | pihole/keepalived_api.py:177-190 | An action outside start/stop/restart gets 400 "Invalid action", and that happens exactly when nothing runs. An allowed action runs its own `systemctl` command first. If that command raises, the reply is Flask's server error and nothing else runs. A non-zero exit is a JSON 500 with that command and code, and nothing else runs. On exit 0 the probe runs next, and the reply succeeds exactly when the probe does. A failing probe's error becomes the error reply. |
| StatusApiFacts.VirtualIpIsFileEntry | pihole/keepalived_api.py:100 | The virtual IP the service reports is the stripped text of some line of the file, never empty and never a comment. |
| StatusApiFacts.UnreadableFileExits | pihole/keepalived_api.py:87-93 | An unreadable configuration file ends start-up with the error's message. |
| StatusApiFacts.StatusRouteSucceeds | pihole/keepalived_api.py:167-175 | The status route answers exactly when the daemon query exits 0 or 3, an interface is configured and the address listing exits 0. |
| StatusApiFacts.StatusQueryFailure | pihole/keepalived_api.py:169-173 | Any other exit of the daemon query is a JSON 500 naming that query and code, and the listing never runs. |
| StatusApiFacts.ListingFailure | pihole/keepalived_api.py:141-173 | When the daemon query answers but the address listing exits non-zero, the status route is a JSON 500 naming the listing and its code, after exactly those two commands. |
| StatusApiFacts.MissingInterfaceCrashes | pihole/keepalived_api.py:143-173 | With no interface in the file, the status route ends in Flask's server error after running the daemon query alone. |
| StatusApiFacts.InactiveDaemonReported | pihole/keepalived_api.py:133-136 | An inactive daemon is still a successful answer, with status "inactive" and empty output. |
| StatusApiFacts.ControlReplyCarriesActionOutput | pihole/keepalived_api.py:181-188 | A successful control reply carries the status and VIP test of the queries run after the action, but the action command's own stripped stdout and stderr. |
| StatusApiFacts.ControlActionFailure | pihole/keepalived_api.py:182-190 | A failing action is a JSON 500 with its own command and code, and nothing else runs. |
| StatusApiFacts.ControlActionRaised | pihole/keepalived_api.py:182-190 | An allowed action whose command raises something other than a CalledProcessError gives Flask's server error, and nothing else runs. |
| StatusApiFacts.ControlProbeFailure | pihole/keepalived_api.py:182-190 | When the action succeeds but the queries after it fail, the reply is the probe's error reply, and the commands run are the action followed by the probe's. |
| StatusApiFacts.ControlWhitelist | pihole/keepalived_api.py:179-180 | The control route refuses an action exactly when it is not one of start, stop and restart. |
| MqttBridge.SanitizeTopicName | pihole/keepalived_api.py:201-202 | Sanitising keeps the length and maps each character on its own: an ASCII letter or digit stays, and every other character becomes `_`. |
| MqttBridge.UniqueId | pihole/keepalived_api.py:205 | The device id is the name sanitised and lower-cased character by character, so each character is the lower case of the name's character when that is an ASCII letter or digit, and `_` otherwise. It uses only lower-case ASCII letters, digits and `_`. |
| MqttBridge.CommandTopicBase | pihole/keepalived_api.py:381 | The command prefix is the name's length plus 37 characters long, with the device id at its fixed place after `homeassistant/button/`. |
| MqttBridge.StateTopic | pihole/keepalived_api.py:382 | The state topic is the name's length plus 45 characters long, holds the device id at its fixed place, and never starts with the command prefix, so the bridge's own state messages are never taken for commands. |
| MqttBridge.PublishTopic | pihole/keepalived_api.py:340-355 | The topic the periodic publisher builds as a base topic plus `/state` is the state topic the command handler builds at line 382. |
| MqttBridge.DiscoveredCommandTopic | pihole/keepalived_api.py:204-225 | The command topic that discovery announces for a button (base, `/`, action) is the handler's prefix followed by the action, and the handler extracts exactly that action from it. |
| MqttBridge.FullPayload | pihole/keepalived_api.py:341-354 | Each of the twelve fields comes from its input: the action, the daemon status, the mode as `determine_mode` of the VIP test, the VIP test, the start-up mode and VIP, the resolver status, the three DNS fields, and the stdout and stderr passed in. |
| MqttBridge.PublishFullStatus | pihole/keepalived_api.py:332-355 | Publishing succeeds exactly when the probes do, and a failing probe publishes nothing. On success it runs the probes, then the resolver query, then dig. The payload is action "status" with the daemon answer, mode, VIP test, resolver status, DNS result and the status query's own stdout/stderr. |
| MqttBridge.ActionFromTopic | pihole/keepalived_api.py:384-385 | A topic names an action exactly when it starts with the command prefix, and the action is the rest of the topic after that prefix. |
| MqttBridge.OnMqttMessage | pihole/keepalived_api.py:378-416 | A message is ignored exactly when its topic is not a command topic, and then nothing runs. Every publish goes to the state topic. |
| MqttBridgeFacts.SanitizeAlphabet | pihole/keepalived_api.py:201-202 | The result uses only ASCII letters, digits and `_`, with every letter and digit of the name in its place. |
| MqttBridgeFacts.SanitizeIdempotent | pihole/keepalived_api.py:201-202 | Sanitising twice is sanitising once. |
| MqttBridgeFacts.CommandTopicRoundTrip | pihole/keepalived_api.py:381-385 | The action extracted from the command prefix followed by an action is that action. |
| MqttBridgeFacts.CommandHandlerRunsAnyAction | pihole/keepalived_api.py:384-391 | For any action named by a command topic, the first command run is `systemctl <action> keepalived`, even when the HTTP control route would run nothing for it. |
| MqttBridgeFacts.ReloadOnlyOverMqtt | pihole/keepalived_api.py:384-391 | `reload` is refused with 400 over HTTP and is run over MQTT. |
| MqttBridgeFacts.CommandPayloadCarriesActionOutput | pihole/keepalived_api.py:388-414 | A successful command publishes on the state topic the full status, with the action's name, the probes' facts, the resolver status, the DNS result and the action command's own stripped output. |
| MqttBridgeFacts.CommandFailureOutcome | pihole/keepalived_api.py:387-416 | A non-zero exit of the action, or a CalledProcessError of the probes, is published as an error payload. Any other exception escapes the handler. |
| MqttBridgeFacts.ControlAndCommandAgree | pihole/keepalived_api.py:399-412 | For an allowed action, the HTTP reply and the MQTT payload agree on every field they share. |
| MqttBridgeFacts.OtherTopicsIgnored | pihole/keepalived_api.py:384 | A topic outside the command prefix is ignored without running anything. |
| FtlWatcher.Fires | pihole/keepalived_api.py:371 | With nothing recorded, every poll publishes. |
| FtlWatcher.Next | pihole/keepalived_api.py:371-373 | The recorded status changes only to the poll's own status and only after a publish that returned normally. A firing poll whose publish returned normally records its status, and a publish that raised leaves the record as it was. |
| FtlWatcher.LastSeen | pihole/keepalived_api.py:366-373 | The recorded status is either none or the status some poll read. |
| FtlWatcher.Attempts | pihole/keepalived_api.py:370-373 | There is one flag per poll, and poll i publishes exactly when its status differs from the status recorded after the first i polls. |
| FtlWatcher.Published | pihole/keepalived_api.py:365-376 | The count of publishes that returned normally is at most the number of polls, and at least one when the first poll's publish returned normally. |
| FtlWatcher.PollOf | pihole/keepalived_api.py:370-372 | A poll's status is the resolver status, and its publish succeeds exactly when the probes of `publish_full_status` succeed. |
| FtlWatcher.PublishFtlStatusChanges | pihole/keepalived_api.py:365-376 | The loop returns, for each poll, whether it published, plus the count of publishes that returned normally and the last recorded status. Each equals its reference fold (`Attempts`, `Published`, `LastSeen`). |
| FtlWatcherFacts.LastSeenSnoc | pihole/keepalived_api.py:371-373 | The status recorded after a poll is the earlier one, replaced by the poll's status only when the poll published and the publish returned normally. |
| FtlWatcherFacts.FirstPollPublishes | pihole/keepalived_api.py:366-372 | The first poll always publishes, because nothing is recorded at the start. |
| FtlWatcherFacts.FailedPublishRetried | pihole/keepalived_api.py:372-375 | After a publish that raised, the next poll publishes again even with the same status. |
| FtlWatcherFacts.UnchangedStatusQuiet | pihole/keepalived_api.py:371-373 | After a publish that returned normally, an unchanged status does not publish. |
| FtlWatcherFacts.ChangedStatusPublishes | pihole/keepalived_api.py:371-373 | After a poll whose publish returned normally, a changed status publishes. |
| FtlWatcherFacts.PublishesFollowChanges | pihole/keepalived_api.py:365-376 | When every publish returns normally, the number of publishes is one plus the number of adjacent status changes, and the recorded status is the last one polled. |
| TextOps.LeadingSpaces | pihole/keepalived_api.py:32 | The leading run that `strip()` removes is all whitespace and stops at a non-whitespace character. |
| TextOps.TrailingSpaces | pihole/keepalived_api.py:32 | The trailing run that `strip()` removes is all whitespace and stops at a non-whitespace character. |
| TextOps.Trim | pihole/keepalived_api.py:32 | `strip()` leaves the contiguous middle of the line after its leading whitespace, followed only by whitespace, with no whitespace at either end. |
| TextOps.TrimIdempotent | pihole/keepalived_api.py:32 | Stripping twice is stripping once. |
| TextOps.TrimPadded | pihole/keepalived_api.py:32 | Whitespace padding around a text with no whitespace at its ends is removed exactly. |
| TextOps.WordLength | pihole/keepalived_api.py:63 | The first word that `split()` takes is a whitespace-free run ending at whitespace or at the end. |
| TextOps.Tokens | pihole/keepalived_api.py:63 | Every token of `split()` is non-empty and free of whitespace, and there are no tokens exactly when the line is all whitespace. |
| TextOps.SecondToken | pihole/keepalived_api.py:63 | `split()[1]` exists exactly when `split()` gives at least two tokens, and it is then the second token, a non-empty whitespace-free word. |
| TextOps.TokensOfWord | pihole/keepalived_api.py:63 | A word followed by whitespace splits into that word followed by the split of the rest. |
| TextOps.TokensAfterSpace | pihole/keepalived_api.py:63 | `split()` skips leading whitespace: whitespace in front of a text leaves its tokens unchanged. With `TokensOfWord` and the all-whitespace case this fixes `split()` as the maximal whitespace-free runs, in order. |
| TextOps.SecondTokenOfLine | pihole/keepalived_api.py:63 | For optional whitespace, a word, whitespace, a second word and then nothing or whitespace, `split()[1]` is that second word. |
| TextOps.KeywordLineHasSecondToken | pihole/keepalived_api.py:63 | A word, whitespace, then a non-whitespace character has a second token. |
| TextOps.CountIsMultiplicity | pihole/keepalived_api.py:38 | `count()` of a character is its multiplicity in the string. |
| TextOps.ContainsIff | pihole/keepalived_api.py:147 | The substring test holds exactly when the text occurs at some index. |
| TextOps.LowerAt | pihole/keepalived_api.py:62 | `lower()` keeps the length and maps each character on its own. |
| TextOps.UpperAt | pihole/keepalived_api.py:63 | `upper()` keeps the length and maps each character on its own. |
| TextOps.LowerCharSpace | pihole/keepalived_api.py:62 | Lower-casing neither creates nor removes whitespace. |

## Left out

- File reading (`open`/`readlines`): the parser receives the lines, or the
  message of the I/O error.
- Process execution: `subprocess.run` of `systemctl`, `ip` and `dig` is an
  oracle from command line to result. The model assumes the same command
  gives the same result within one operation, while the real system can
  change between two calls.
- Exception messages: a `CalledProcessError` is modelled by its command line
  and exit code, with no `str(e)` text. Any other exception (a missing
  binary, the `dig` timeout, the TypeError of a missing interface) is one
  `Raised`/`Uncaught` case.
- Flask: routing, `jsonify`, the `before_request` IP allow-list (lines
  115-121) and the port setting. Replies are datatypes, not JSON.
- The `configparser` settings (MQTT host, credentials, interval,
  allowed IPs): these are not inputs of the modelled logic.
- MQTT transport: connecting, subscribing and `publish` itself, and the
  retain flag. An operation returns what it would publish.
- The discovery payloads (`publish_discovery`, lines 204-300): only the
  command topics they announce are modelled, not the JSON templates.
- Threads, `time.sleep` and the endless loops: `publish_status_periodic` is a
  loop around `publish_full_status` that prints and swallows every exception.
  The change detector runs over a finite sequence of polls.
- `time.time()`: the DNS probe's duration is an integer parameter.
- `lower()`/`upper()` act on ASCII letters only. Python also maps non-ASCII
  letters, which matters only for non-ASCII keywords or roles.
- `KeepalivedConfig.Parse`: the text of the `{"error": ...}` result is
  Python's `str(e)`. It is taken from the unreadable-file input, or is
  "list index out of range" for the IndexError of `split()[1]`. Other
  exceptions during parsing cannot arise on a sequence of lines.
