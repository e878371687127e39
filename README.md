# ironic_exporter core, modelled in Dafny

This project models the sequential logic of the Ironic exporter, a
Prometheus exporter for OpenStack Ironic bare-metal nodes. The model has
three parts.

1. **The notification consumer** (`Notifications` in
   `src/ironic_notifications.py`). It reads Ironic versioned notifications
   from RabbitMQ. It correlates `start` events with `end`/`success` events in
   a per-session store (`nodes_status`: node id → subcategory → raw start
   timestamp). From them it sets a duration gauge. It also counts `error`
   events per node and mirrors each node's provision state into a gauge.
   - Module `IronicEvents` gives the message pipeline as functions over the
     session state (store plus metric series): decoding, the
     correlation state machine, `_set_provision_state`, `_callback`, and a run
     of deliveries.
   - Module `IronicNotifications` has the session class. Its fields are the
     store and the metric series, updated in place by methods proved equal to
     those functions. It also models `run`: queue naming, the store reset, the
     404 and exception outcomes, and the `retry` decorator over a scripted
     broker.
   - Module `IronicEventsProperties` proves what the pipeline promises. The
     main result is `StartThenEnd`: a `start`, any messages that do not restart
     the same pair, then the matching `end` give the gauge the `.seconds` of
     the elapsed time.
   - Module `Timedelta` models `datetime` subtraction and the `.seconds` field
     the gauge reads. That field is the seconds-of-day component, not the total
     number of seconds.
2. **Leftover-port accounting** (`Ports` in `src/ironic_ports.py`), in module
   `IronicPorts`. A node that is not `available` reads 0 on the ports gauge.
   For an available node the gauge sums, over the node's Ironic ports, the
   number of Neutron ports carrying that port's MAC address. A Neutron port
   reached through two Ironic ports with the same address counts twice. The
   call-back gauge flags nodes in `wait call-back`.
3. **The RabbitMQ credential scan** (`get_rabbitmq_auth` in `src/config.py`),
   in module `RabbitmqAuth`. The text is read line by line. The first line whose
   first occurrence of `"rabbitmq"` is after column 0 yields its double-quoted
   substrings, as `re.findall(r'"(.+?)"', line)` finds them.

Supporting modules: `Wrappers` (Option, Result), `JsonValue` (decoded JSON
and the Python exception kinds), and `PyStr` (`str.find` and `str.split`).

## Modelling decisions

- **Messages.** A message is a decoded JSON tree. Dict subscripting raises
  `KeyError` for a missing key and `TypeError` on a non-dict.
- **Exceptions.** Every exception the core can raise is an explicit outcome:
  - `IndexError` for fewer than four `event_type` segments;
  - `ValueError` for a timestamp that does not parse;
  - `TypeError` for an unhashable node id;
  - `AttributeError` for a non-string `event_type`.

  `_callback` catches only `KeyError`. Any other exception ends consumption
  and makes `run` raise.
- **Library calls.**
  - `json.loads` is a parameter.
  - `datetime.strptime` is a parameter that gives microseconds on one time
    line.
  - The `Provision_States` table is a parameter.
  - The Ironic and Neutron clients are fixed answers: the node list, the
    node's port MACs, and the Neutron port ids for a MAC.
  - The config-map text is the argument of `GetRabbitmqAuth`.
- **Metric series.** Each is a map from its label values to its current
  value. The gauges hold the value last set. The error counter starts at 0
  and is incremented by one per counted event. Labels are the JSON values
  themselves.
- **Broker.** One `run` is driven by an `Attempt`, a script of what the
  broker does: failures at set-up, declaration, binding and registration, the
  bodies delivered, and how consuming stops. The `Command`s recorded are the
  requests `run` makes. The retry decorator is `Supervise` over a sequence of
  attempts.
- **The store reset.** The store is emptied at line 39. That is after the
  connection, channel, prefetch and (for a private queue) the queue
  declaration have succeeded. A `run` that fails before that point keeps the
  previous store. The model follows the code here, not the looser reading
  that every (re)entry resets the store.

## Model

| member | source | states |
|---|---|---|
| JsonValue.Get | src/ironic_notifications.py:95-98 | a dict subscript: the field's value when the key is present, KeyError exactly when a dict lacks the key, TypeError exactly when the value is not a dict |
| JsonValue.Hashable | src/ironic_notifications.py:106 | definition, no contract: only null, numbers and strings can be dict keys or tested for membership in a dict |
| PyStr.Find | src/config.py:72 | result is the lowest index at which the pattern occurs, or -1 when it does not occur |
| PyStr.Split | src/ironic_notifications.py:91 | there is at least one part and no part contains the separator |
| PyStr.JoinSplit | src/ironic_notifications.py:91 | joining the parts with the separator gives the original string back |
| PyStr.SplitJoin | src/ironic_notifications.py:91 | splitting a join of separator-free parts gives the parts back |
| PyStr.SplitCount | src/ironic_notifications.py:91 | the number of parts is one more than the number of separators |
| PyStr.SplitSeparated | src/ironic_notifications.py:91 | the parts of a string of the form a + sep + b are those of a followed by those of b |
| PyStr.SplitWhole | src/ironic_notifications.py:91 | a string without the separator splits into itself alone |
| Timedelta.FromMicros | src/ironic_notifications.py:118 | the timedelta is normalised (0 <= seconds < 86400, 0 <= microseconds < 10^6) and its total is the given microsecond count |
| Timedelta.Difference | src/ironic_notifications.py:118 | end minus start is normalised and totals exactly end − start microseconds |
| Timedelta.FromTotal | src/ironic_notifications.py:118 | normalisation is unique: a normalised timedelta is rebuilt from its total |
| Timedelta.SecondsWithinDay | src/ironic_notifications.py:120 | for elapsed times in [0, 1 day), `.seconds` is the elapsed whole seconds rounded down and days is 0 |
| Timedelta.SecondsIgnoreDays | src/ironic_notifications.py:120 | `.seconds` forgets whole days: one day longer reads the same |
| Timedelta.SecondsOfSmallNegative | src/ironic_notifications.py:120 | an end up to one second before its start reads 86399 |
| IronicEvents.StartsParseNewNode | src/ironic_notifications.py:106-107 | adding an empty entry for a new node keeps every stored start parseable |
| IronicEvents.StartsParseWrite | src/ironic_notifications.py:111-112 | storing a parseable timestamp keeps every stored start parseable |
| IronicEvents.SplitEventType | src/ironic_notifications.py:91 | definition, no contract: `split('.')` of a string, AttributeError otherwise; PyStr.Split and its lemmas state the split |
| IronicEvents.ParseTimestamp | src/ironic_notifications.py:94 | definition, no contract: TypeError for a non-string, ValueError for text the format rejects; Decode and DecodeErrors state its effect |
| IronicEvents.Decode | src/ironic_notifications.py:90-101 | a decoded event comes from a dict; no segment contains '.', and the segments joined with '.' give event_type back; its raw timestamp is msg['timestamp'] and parses to its microseconds; its data is msg['payload']['ironic_object.data'], and the uuid, name and provision_state are that dict's fields; never IndexError; TypeError for a non-dict message; AttributeError exactly for a non-string event_type; ValueError exactly for a string timestamp that does not parse |
| IronicEvents.DecodeSegments | src/ironic_notifications.py:91 | the decoded segments are exactly `event_type.split('.')`, so segment 2 is the subcategory and segment 3 the phase |
| IronicEvents.DecodeErrors | src/ironic_notifications.py:90-99 | lookup by lookup in source order: a missing event_type, timestamp, payload, ironic_object.data, uuid, name or provision_state gives KeyError; a non-dict message, payload or data, or a non-string timestamp, gives TypeError |
| IronicEvents.HandleEvents | src/ironic_notifications.py:89-125 | every stored start still parses afterwards |
| IronicEvents.HandleDecoded | src/ironic_notifications.py:103-125 | every stored start still parses afterwards |
| IronicEvents.HandlePhase | src/ironic_notifications.py:109-125 | every stored start still parses afterwards |
| IronicEvents.ReadStateFields | src/ironic_notifications.py:82-84 | the three lookups succeed exactly when payload, ironic_object.data and the three fields exist, giving (provision_state, uuid, name); a missing key gives KeyError, a non-dict gives TypeError |
| IronicEvents.SetProvisionState | src/ironic_notifications.py:81-86 | only the state gauge can change; KeyError exactly when a lookup misses a key; TypeError exactly when a lookup meets a non-dict or the state is unhashable |
| IronicEvents.Unwrap | src/ironic_notifications.py:73-74 | succeeds exactly when the body is a JSON dict whose 'oslo.message' is a string that is itself JSON, and gives that inner value; ValueError for text that is not JSON, TypeError for a non-dict envelope or a non-string oslo.message, KeyError exactly for a dict without 'oslo.message' |
| IronicEvents.Loads | src/ironic_notifications.py:73-74 | definition, no contract: `json.loads`, TypeError for a non-string, ValueError for text that is not JSON; Unwrap states its effect |
| IronicEvents.Dispatch | src/ironic_notifications.py:75-78 | stored starts still parse and a KeyError never escapes |
| IronicEvents.Callback | src/ironic_notifications.py:71-78 | stored starts still parse and a KeyError never escapes `_callback` |
| IronicEvents.Deliver | src/ironic_notifications.py:57-58 | over any run of deliveries, stored starts still parse and no KeyError escapes |
| IronicEventsProperties.StartRecordsTimestamp | src/ironic_notifications.py:111-113 | a start event stores its raw timestamp under (node_id, seg2), overwriting an earlier one; every other slot and every metric are unchanged |
| IronicEventsProperties.EndSetsDuration | src/ironic_notifications.py:114-120 | end/success with a stored start sets the duration gauge (node_id, node_name, seg1_seg2) to the `.seconds` of end − start; the store and the other series are unchanged, so the start is not removed |
| IronicEventsProperties.EndWithoutStart | src/ironic_notifications.py:106-116 | end/success without a stored start changes no metric and no stored start; the node has an entry afterwards |
| IronicEventsProperties.ErrorCounts | src/ironic_notifications.py:106-125 | an error event with target_provision_state adds exactly 1 to the (node_id, node_name) counter, and every other counter is unchanged; without it the KeyError escapes and no metric changes; stored starts never change, and the node has an entry afterwards |
| IronicEventsProperties.OtherPhaseOnlyLogs | src/ironic_notifications.py:109-110 | any other phase changes no metric and no stored start |
| IronicEventsProperties.EarlyReturnStillSetsState | src/ironic_notifications.py:72-104 | a KeyError while parsing, or a null node name, leaves the state unchanged, and `_callback` still applies `_set_provision_state` |
| IronicEventsProperties.ShortEventTypeRaises | src/ironic_notifications.py:103-109 | a named event with fewer than four event_type segments gets its node entry, then IndexError escapes `_callback`; no stored start and no metric change |
| IronicEventsProperties.BadTimestampRaises | src/ironic_notifications.py:91-94 | a string timestamp not in the expected format makes ValueError escape `_callback` with nothing changed |
| IronicEventsProperties.MissingTargetSkipsState | src/ironic_notifications.py:72-78 | an error event without target_provision_state: `_callback` swallows the KeyError and no metric moves, so the state gauge is skipped |
| IronicEventsProperties.ProvisionStateGauge | src/ironic_notifications.py:81-86 | the state gauge of (uuid, name) is set to the table's code exactly when the state name is in the table; otherwise nothing changes |
| IronicEventsProperties.PhaseSlotFrame | src/ironic_notifications.py:109-125 | only a start event for (id, sub) changes the slot (id, sub) |
| IronicEventsProperties.DispatchStore | src/ironic_notifications.py:75-76 | `_set_provision_state` touches neither the store nor the duration gauge |
| IronicEventsProperties.SlotFrame | src/ironic_notifications.py:71-78 | a body that is not a start for (id, sub) leaves that slot as it was |
| IronicEventsProperties.DeliverAppend | src/ironic_notifications.py:57-58 | delivering a + b is delivering a, then b unless a raised |
| IronicEventsProperties.DeliverLast | src/ironic_notifications.py:57-58 | after a run that raised nothing, one more body acts as a single callback |
| IronicEventsProperties.SlotSurvives | src/ironic_notifications.py:106-116 | a slot survives any run of messages none of which is a start for the same (id, sub); entries are never deleted |
| IronicEventsProperties.CallbackAsHandleEvents | src/ironic_notifications.py:71-76 | what `_callback` does to the store and the duration gauge is what `_handle_events` does |
| IronicEventsProperties.StartSurvives | src/ironic_notifications.py:111-116 | after a start and any run that does not restart the pair, the start's timestamp is still stored |
| IronicEventsProperties.EndAfterStart | src/ironic_notifications.py:114-120 | the ending message, delivered while the start is stored, sets the gauge |
| IronicEventsProperties.EndAfterRun | src/ironic_notifications.py:114-120 | the ending message after a run that left the start stored sets the gauge |
| IronicEventsProperties.StartThenEnd | src/ironic_notifications.py:111-120 | correlation: start, non-restarting messages, then end/success for the same (node_id, seg2), whatever its seg1: the gauge holds `.seconds` of end − start |
| IronicNotifications.QueueNamesDistinct | src/ironic_notifications.py:35-44 | the shared and private queue names never coincide and each determines its routing key; the binding key is always the shared name |
| IronicNotifications.QueueName | src/ironic_notifications.py:35-37 | definition, no contract; its properties are stated by QueueNamesDistinct |
| IronicNotifications.BindingKey | src/ironic_notifications.py:42-44 | definition, no contract; its properties are stated by QueueNamesDistinct |
| IronicNotifications.Retried | src/ironic_notifications.py:27-28 | definition, no contract: the decorator retries AMQPConnectionError and ConnectionClosedByBroker only |
| IronicNotifications.BindFailure | src/ironic_notifications.py:50-55 | definition, no contract; its outcomes are stated by BindFailureOutcome |
| IronicNotifications.RunSpec | src/ironic_notifications.py:29-68 | stored starts still parse after a run; the outcomes are stated by the lemmas that follow |
| IronicNotifications.ConsumeSpec | src/ironic_notifications.py:57-68 | stored starts still parse after consuming; the outcomes are stated by ConsumingOutcome |
| IronicNotifications.SetUpFailureKeepsState | src/ironic_notifications.py:30-38 | a failure while connecting or declaring the private queue escapes `run` with the state, store included, unchanged; the requests made are none, or the declaration |
| IronicNotifications.ResetForgetsStore | src/ironic_notifications.py:39 | once set-up succeeds the store is emptied: the run's requests, outcome and final state do not depend on the store it started from |
| IronicNotifications.BindFailureOutcome | src/ironic_notifications.py:41-55 | a failure while binding or registering leaves an emptied store and never starts consuming; ChannelClosed 404 returns QueueNotFound (not retried), any other failure escapes |
| IronicNotifications.ConsumingOutcome | src/ironic_notifications.py:57-68 | after a clean set-up, the requests are declare?, bind, consume, start_consuming, plus stop-and-close exactly when interrupted; the deliveries act on the emptied store; callback exception, cancellation, interrupt and other failures give their outcomes |
| IronicNotifications.Supervise | src/ironic_notifications.py:27-29 | at most one outcome per attempt and at least one when there is an attempt; stored starts still parse |
| IronicNotifications.SuperviseStopsAtFirstFinal | src/ironic_notifications.py:27-28 | every outcome but the last is AMQPConnectionError or ConnectionClosedByBroker; the decorator stops at the first other outcome |
| IronicNotifications.QueueNotFoundNotRetried | src/ironic_notifications.py:27-54 | a 404 while binding ends the retried `run` after that one attempt, with an emptied store |
| IronicNotifications.BrokerCloseRetried | src/ironic_notifications.py:27-68 | a broker closure while consuming is retried: the next attempt runs from the state the deliveries left |
| IronicNotifications.CallbackFaultNotRetried | src/ironic_notifications.py:27-58 | an exception escaping the message callback ends the retried `run` with that attempt |
| IronicNotifications.Notifications.constructor | src/ironic_notifications.py:17-25 | a new session has an empty store and the given settings |
| IronicNotifications.Notifications.HandleEvents | src/ironic_notifications.py:89-101 | the new store and series, and the escaping exception, are those of IronicEvents.HandleEvents |
| IronicNotifications.Notifications.HandleDecoded | src/ironic_notifications.py:103-125 | the in-place updates of the store and series equal IronicEvents.HandleDecoded |
| IronicNotifications.Notifications.SetProvisionState | src/ironic_notifications.py:81-86 | the state gauge update, or the exception, of IronicEvents.SetProvisionState; the store is untouched |
| IronicNotifications.Notifications.Callback | src/ironic_notifications.py:71-78 | the session after `_callback` equals IronicEvents.Callback |
| IronicNotifications.Notifications.DispatchDeliveries | src/ironic_notifications.py:57-58 | the consuming loop equals IronicEvents.Deliver over the delivered bodies |
| IronicNotifications.Notifications.Run | src/ironic_notifications.py:29-68 | the requests made, the outcome and the new session state equal RunSpec: shared or private queue, reset after set-up, 404 returns without consuming, interrupt closes |
| IronicNotifications.Notifications.ConsumeUntilStopped | src/ironic_notifications.py:57-68 | deliveries and how consuming stops equal ConsumeSpec |
| IronicNotifications.Notifications.RunRetrying | src/ironic_notifications.py:27-29 | the outcomes and final state of the retried `run` equal Supervise |
| IronicPorts.MatchedAppend | src/ironic_ports.py:36-48 | ids are collected in Ironic-port order: the ids for ports a + b are those for a followed by those for b |
| IronicPorts.MatchedMembers | src/ironic_ports.py:36-48 | an id is reported iff some port of the node has a MAC address that a Neutron port with that id carries |
| IronicPorts.MatchedCount | src/ironic_ports.py:50-51 | the gauge value is the sum over the node's ports of the number of Neutron ports with that MAC |
| IronicPorts.Matched | src/ironic_ports.py:36-48 | definition, no contract; MatchedAppend, MatchedMembers and MatchedCount state its properties |
| IronicPorts.PortsValue | src/ironic_ports.py:25-51 | definition, no contract: 0 for a node that is not available, otherwise the number of matched ports |
| IronicPorts.CallbackValue | src/ironic_ports.py:56-60 | the call-back gauge value is 1 iff the state is 'wait call-back', else 0 |
| IronicPorts.LastIndex | src/ironic_ports.py:74-77 | the last position of a uuid in the node list, or -1 if it is not listed |
| IronicPorts.PortsGaugeAfter | src/ironic_ports.py:74-77 | definition, no contract: the ports gauge after visiting the nodes in order; PortsGaugeLastWins states its meaning |
| IronicPorts.CallbackGaugeAfter | src/ironic_ports.py:74-77 | definition, no contract: the call-back gauge after visiting the nodes in order; CallbackGaugeLastWins states its meaning |
| IronicPorts.PortsGaugeLastWins | src/ironic_ports.py:74-77 | an unlisted uuid keeps its ports gauge; a listed uuid holds the value of its last occurrence |
| IronicPorts.CallbackGaugeLastWins | src/ironic_ports.py:74-77 | the same for the call-back gauge |
| IronicPorts.Ports.constructor | src/ironic_ports.py:10-12 | the clients' answers and gauges are those given |
| IronicPorts.Ports.AvailableNodes | src/ironic_ports.py:15-20 | the node list is the Ironic client's answer |
| IronicPorts.Ports.LeftoverPortIds | src/ironic_ports.py:33-48 | the ids collected are every Neutron port matched by each Ironic port in turn; one match and many matches both add every id, none adds nothing |
| IronicPorts.Ports.SetLeftoverPorts | src/ironic_ports.py:23-53 | the node's ports gauge becomes 0 for a node that is not 'available', else the number of leftover ports; nothing else changes |
| IronicPorts.Ports.SetWaitCallbackState | src/ironic_ports.py:56-60 | the node's call-back gauge becomes 1 or 0; nothing else changes |
| IronicPorts.Ports.StartIronicNodesQuery | src/ironic_ports.py:64-77 | both gauges become the node-by-node fold over the list; an empty list changes nothing |
| RabbitmqAuth.LineEnd | src/config.py:71 | a line runs to just after the next newline, or to the end of the text; it is non-empty unless at the end |
| RabbitmqAuth.ReadLine | src/config.py:71 | definition, no contract; LineEnd, LinesConcat and LinesShape state its properties |
| RabbitmqAuth.LinesFrom | src/config.py:70-71 | definition, no contract: the lines `readline` returns from a position until ''; LinesConcat and LinesShape state its properties |
| RabbitmqAuth.Lines | src/config.py:70-71 | definition, no contract: the lines of the whole text |
| RabbitmqAuth.LinesConcat | src/config.py:68-71 | reading line by line loses nothing: the lines concatenate to the text |
| RabbitmqAuth.LinesShape | src/config.py:71 | each line read is non-empty with a newline at most at its end; every line but the last ends in one |
| RabbitmqAuth.CloseFrom | src/config.py:73 | a closing quote, when found, lies within the line |
| RabbitmqAuth.CloseFromIff | src/config.py:73 | the closing quote is the first quote with no newline before it |
| RabbitmqAuth.MatchAt | src/config.py:73 | a match at p closes at least two characters later, within the line |
| RabbitmqAuth.MatchAtIff | src/config.py:73 | the pattern matches at p exactly when quotes at p and k enclose a body of one or more non-newline characters with no quote after its first character |
| RabbitmqAuth.Spans | src/config.py:73 | every span found lies within the line and starts at or after the scan position |
| RabbitmqAuth.SpansAreMatches | src/config.py:73 | every span found is a match |
| RabbitmqAuth.SpansOrdered | src/config.py:73 | matches are found left to right and do not overlap |
| RabbitmqAuth.SkippedIsNoMatch | src/config.py:73 | a position the scan skipped over (inside no span found) is not the start of a match |
| RabbitmqAuth.SpansLeftmost | src/config.py:73 | no match starts at a position the scan skipped: the matches are the leftmost ones |
| RabbitmqAuth.FindAll | src/config.py:73 | definition, no contract: the bodies of the spans found; FindAllElements states their properties |
| RabbitmqAuth.FindAllElements | src/config.py:73 | every substring returned is non-empty, holds no newline and no quote except possibly as its first character, and is quoted on both sides in the line |
| RabbitmqAuth.Qualifies | src/config.py:72 | definition, no contract: the first occurrence of '"rabbitmq"' is after column 0 |
| RabbitmqAuth.FirstQualifying | src/config.py:70-77 | definition, no contract: the quoted substrings of the first qualifying line, or None; NoneIffNoneQualifies, FirstQualifyingLine and LaterLinesIgnored state its meaning |
| RabbitmqAuth.NoneIffNoneQualifies | src/config.py:70-77 | the answer is None exactly when no line has '"rabbitmq"' first at an index > 0 |
| RabbitmqAuth.FirstQualifyingLine | src/config.py:70-74 | the first qualifying line decides the answer: its quoted substrings |
| RabbitmqAuth.LaterLinesIgnored | src/config.py:73-74 | lines after the first qualifying line are never examined |
| RabbitmqAuth.ColumnZeroSkipped | src/config.py:72 | a line that starts with '"rabbitmq"' is skipped even when the word occurs again later in it |
| RabbitmqAuth.GetRabbitmqAuth | src/config.py:61-77 | the `while True` readline loop returns the quoted substrings of the first qualifying line, or None once the buffer is exhausted |

## Left out

- Threading. Each `Notifications` is a `Thread` and two sessions run at once. The metric backend they share, and its thread safety, are not modelled. Each session is modelled with its own series.
- pika's connection, channel, `basic_qos`, `queue_declare`, `queue_bind`, `basic_consume`, `start_consuming`, `stop_consuming` and `close` are not modelled as code. They appear only as the `Attempt` script and the `Command` log. The broker host name built from the region is not modelled, and neither are the credentials.
- The `retry` decorator's delay of 5 seconds and its jitter of 1 to 3 seconds (timing and randomness). Only which exceptions are retried is modelled, plus the order of the attempts.
- `KeyboardInterrupt` is modelled only while consuming. That is where the source catches it. At any other point it is an unclassified exception.
- Logging. It has no effect on state.
- The internals of `json.loads` and `datetime.strptime`. Both are parameters. JSON booleans and floating-point numbers are not represented.
- IronicEvents.HandlePhase: the duration and error-counter labels are JSON values. Prometheus renders them with `str()`, and collisions between label values (for example a null name and the string "None") are not modelled.
- IronicEvents.SetProvisionState: the same holds for the provision-state gauge's labels.
- The `metrics` module and the `Provision_States` table are not part of this model. The table is a parameter.
- src/main.py, the Kubernetes config-map fetch, the keystone, Neutron and Ironic client construction, and configparser. These are start-up and library wrappers. The config-map text is the argument of `GetRabbitmqAuth`.
- IronicPorts: the `except KeyError` blocks around the ports gauge (src/ironic_ports.py:27-30, 50-53) are not modelled. Setting a gauge cannot raise `KeyError`, and neither can `leftover_neutron_ports[node.uuid]`, because line 34 has just set that key. The Neutron response's `['ports']` and `['id']` lookups are taken as already done by the client.
- IronicPorts.Ports.SetLeftoverPorts: that a node which is not available causes no Ironic or Neutron lookup cannot be observed, because the clients are fixed answers. The model shows it only in the control flow.
- The Ironic and Neutron clients are snapshots: the answers do not change during one `start_ironic_nodes_query`.
