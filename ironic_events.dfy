/** The message pipeline of the notification consumer, as functions over the
    consumer's state: decoding one Ironic versioned notification
    (`_handle_events`' try block), the correlation state machine
    (`_handle_events`), the provision-state gauge (`_set_provision_state`)
    and the callback that chains them (`_callback`). The session class in
    module IronicNotifications runs these steps imperatively and is proved
    against them. */
module IronicEvents {
  import opened Wrappers
  import opened JsonValue
  import opened PyStr
  import Timedelta

  /** The correlation store: node id -> subcategory -> raw start timestamp. */
  type Store = map<Json, map<string, string>>

  /** The metric series the consumer writes, keyed by their label values. */
  datatype Sink = Sink(
    durations: map<(Json, Json, string), int>,  // IrionicEventGauge(node_id, node_name, event_label)
    errors: map<(Json, Json), nat>,             // IrionicEventErrorCounter(node_id, node_name)
    states: map<(Json, Json), int>)             // IronicProvisionState(node_id, node_name)

  datatype State = State(store: Store, sink: Sink)

  /** The state after one step, and the exception that escaped it, if any. */
  datatype Step = Step(state: State, raised: Option<Exc>)

  /** Library code the consumer calls: `json.loads` (None: the text is not
      JSON), `datetime.strptime` with format '%Y-%m-%d %H:%M:%S.%f' giving
      microseconds on a fixed time line (None: the text does not match), and
      the provision-state table `Provision_States`. */
  datatype Externals = Externals(
    loads: string -> Option<Json>,
    parseTime: string -> Option<int>,
    provisionStates: map<string, int>)

  const PayloadKey: string := "ironic_object.data"


  /** The start timestamp stored for `(id, sub)`, if any. */
  function Slot(store: Store, id: Json, sub: string): Option<string> {
    if id in store && sub in store[id] then Some(store[id][sub]) else None
  }

  /** Every stored start timestamp was parsed successfully when it was stored. */
  ghost predicate StartsParse(store: Store, parseTime: string -> Option<int>) {
    forall id, sub :: Slot(store, id, sub).Some? ==> parseTime(Slot(store, id, sub).value).Some?
  }

  lemma StartsParseNewNode(store: Store, parseTime: string -> Option<int>, id: Json)
    requires StartsParse(store, parseTime)
    ensures StartsParse(store[id := map[]], parseTime)
  {
    var store' := store[id := map[]];
    forall n, c | Slot(store', n, c).Some?
      ensures parseTime(Slot(store', n, c).value).Some?
    {
      assert Slot(store', n, c) == Slot(store, n, c);
    }
  }

  lemma StartsParseWrite(store: Store, parseTime: string -> Option<int>, id: Json, sub: string, ts: string)
    requires StartsParse(store, parseTime) && id in store && parseTime(ts).Some?
    ensures StartsParse(store[id := store[id][sub := ts]], parseTime)
  {
    var store' := store[id := store[id][sub := ts]];
    forall n, c | Slot(store', n, c).Some?
      ensures parseTime(Slot(store', n, c).value).Some?
    {
      if (n, c) != (id, sub) {
        assert Slot(store', n, c) == Slot(store, n, c);
      }
    }
  }

  /** The fields of a message that `_handle_events` reads inside its try block. */
  datatype Event = Event(
    segments: seq<string>,   // event_type split on '.'
    timestamp: string,       // the raw timestamp text
    micros: int,             // the parsed timestamp
    data: Json,              // payload['ironic_object.data']
    nodeId: Json,
    nodeName: Json,
    provisionState: Json)

  /** An event that gets past the early returns of `_handle_events` to its
      phase dispatch: it names its node and has at least four segments. */
  predicate Correlatable(ev: Event) {
    ev.nodeName != Null && Hashable(ev.nodeId) && |ev.segments| >= 4
  }

  /** The message is a `start` event that stores a timestamp under `(id, sub)`. */
  predicate WritesStart(msg: Json, parseTime: string -> Option<int>, id: Json, sub: string) {
    match Decode(msg, parseTime)
    case Err(_) => false
    case Ok(ev) => Correlatable(ev) && ev.segments[3] == "start" && ev.nodeId == id && ev.segments[2] == sub
  }

  /** The message body unwraps to a `start` event for `(id, sub)`. */
  predicate BodyWritesStart(body: string, ext: Externals, id: Json, sub: string) {
    match Unwrap(body, ext.loads)
    case Err(_) => false
    case Ok(msg) => WritesStart(msg, ext.parseTime, id, sub)
  }

  /** None of the bodies is a `start` event for `(id, sub)`. */
  predicate NoRestart(bodies: seq<string>, ext: Externals, id: Json, sub: string)
    decreases |bodies|
  {
    bodies == [] || (!BodyWritesStart(bodies[0], ext, id, sub) && NoRestart(bodies[1..], ext, id, sub))
  }

  /** `s.split('.')`; a value that is not a string has no `split`. */
  function SplitEventType(et: Json): Result<seq<string>, Exc> {
    if et.Str? then Ok(Split(et.s, '.')) else Err(AttributeError)
  }

  /** `datetime.strptime(ts, ...)`: TypeError for a non-string, ValueError for
      a string that does not match the format. */
  function ParseTimestamp(ts: Json, parseTime: string -> Option<int>): Result<int, Exc> {
    if !ts.Str? then Err(TypeError)
    else match parseTime(ts.s)
      case None => Err(ValueError)
      case Some(us) => Ok(us)
  }

  /** The try block of `_handle_events`, in the source's order of lookups. */
  function Decode(msg: Json, parseTime: string -> Option<int>): (r: Result<Event, Exc>)
    ensures r.Ok? ==> msg.Obj? && "event_type" in msg.fields && msg.fields["event_type"].Str?
    ensures r.Ok? ==> |r.value.segments| >= 1 && Join(r.value.segments, '.') == msg.fields["event_type"].s
    ensures r.Ok? ==> forall k :: 0 <= k < |r.value.segments| ==> '.' !in r.value.segments[k]
    ensures r.Ok? ==> "timestamp" in msg.fields && msg.fields["timestamp"] == Str(r.value.timestamp)
    ensures r.Ok? ==> parseTime(r.value.timestamp) == Some(r.value.micros)
    ensures r.Ok? ==> && "payload" in msg.fields && msg.fields["payload"].Obj?
                      && PayloadKey in msg.fields["payload"].fields
                      && msg.fields["payload"].fields[PayloadKey] == r.value.data
    ensures r.Ok? ==> && r.value.data.Obj?
                      && "uuid" in r.value.data.fields && r.value.data.fields["uuid"] == r.value.nodeId
                      && "name" in r.value.data.fields && r.value.data.fields["name"] == r.value.nodeName
                      && "provision_state" in r.value.data.fields
                      && r.value.data.fields["provision_state"] == r.value.provisionState
    ensures r.Err? ==> r.error != IndexError
    ensures !msg.Obj? ==> r == Err(TypeError)
    ensures r == Err(AttributeError) <==> msg.Obj? && "event_type" in msg.fields && !msg.fields["event_type"].Str?
    ensures r == Err(ValueError) <==>
      && msg.Obj? && "event_type" in msg.fields && msg.fields["event_type"].Str?
      && "timestamp" in msg.fields && msg.fields["timestamp"].Str?
      && parseTime(msg.fields["timestamp"].s).None?
  {
    var eventType :- Get(msg, "event_type");
    var segments :- SplitEventType(eventType);
    JoinSplit(eventType.s, '.');
    var timestamp :- Get(msg, "timestamp");
    var micros :- ParseTimestamp(timestamp, parseTime);
    var payload :- Get(msg, "payload");
    var data :- Get(payload, PayloadKey);
    var nodeId :- Get(data, "uuid");
    var nodeName :- Get(data, "name");
    var provisionState :- Get(data, "provision_state");
    Ok(Event(segments, timestamp.s, micros, data, nodeId, nodeName, provisionState))
  }

  /** The segments are exactly the pieces of event_type between dots, so
      segment 2 is the subcategory and segment 3 the phase the state machine
      reads. */
  lemma DecodeSegments(msg: Json, parseTime: string -> Option<int>, ev: Event)
    requires Decode(msg, parseTime) == Ok(ev)
    ensures ev.segments == Split(msg.fields["event_type"].s, '.')
  {
    SplitJoin(ev.segments, '.');
  }

  /** Which exception each step of `_handle_events`' try block raises, in
      the source's order of lookups: a missing key gives KeyError (which
      `_handle_events` swallows), subscripting a value that is not a dict
      gives TypeError, and a timestamp that is not a string gives TypeError. */
  lemma DecodeErrors(msg: Json, parseTime: string -> Option<int>)
    ensures var r := Decode(msg, parseTime);
      && (!msg.Obj? ==> r == Err(TypeError))
      && (msg.Obj? ==>
        var m := msg.fields;
        && ("event_type" !in m ==> r == Err(KeyError))
        && ("event_type" in m && m["event_type"].Str? ==>
          && ("timestamp" !in m ==> r == Err(KeyError))
          && ("timestamp" in m && !m["timestamp"].Str? ==> r == Err(TypeError))
          && ("timestamp" in m && m["timestamp"].Str? && parseTime(m["timestamp"].s).Some? ==>
            && ("payload" !in m ==> r == Err(KeyError))
            && ("payload" in m && !m["payload"].Obj? ==> r == Err(TypeError))
            && ("payload" in m && m["payload"].Obj? ==>
              var p := m["payload"].fields;
              && (PayloadKey !in p ==> r == Err(KeyError))
              && (PayloadKey in p && !p[PayloadKey].Obj? ==> r == Err(TypeError))
              && (PayloadKey in p && p[PayloadKey].Obj? ==>
                var d := p[PayloadKey].fields;
                && ("uuid" !in d ==> r == Err(KeyError))
                && ("uuid" in d && "name" !in d ==> r == Err(KeyError))
                && ("uuid" in d && "name" in d && "provision_state" !in d ==> r == Err(KeyError)))))))
  {
  }

  /** `_handle_events`: the correlation state machine. A KeyError inside the
      parsing block is logged and swallowed; the KeyError of a missing
      `target_provision_state` on an error event escapes. */
  function HandleEvents(st: State, msg: Json, parseTime: string -> Option<int>): (r: Step)
    requires StartsParse(st.store, parseTime)
    ensures StartsParse(r.state.store, parseTime)
  {
    match Decode(msg, parseTime)
    case Err(e) => Step(st, if e == KeyError then None else Some(e))
    case Ok(ev) => HandleDecoded(st, ev, parseTime)
  }

  /** `_handle_events` after its try block: the early return for a null node
      name, the node's entry, the segment count, then the phase. */
  function HandleDecoded(st: State, ev: Event, parseTime: string -> Option<int>): (r: Step)
    requires StartsParse(st.store, parseTime)
    requires parseTime(ev.timestamp) == Some(ev.micros)
    ensures StartsParse(r.state.store, parseTime)
  {
    if ev.nodeName == Null then Step(st, None)
    else if !Hashable(ev.nodeId) then Step(st, Some(TypeError))
    else
      var store := if ev.nodeId in st.store then st.store else st.store[ev.nodeId := map[]];
      StartsParseNewNode(st.store, parseTime, ev.nodeId);
      if |ev.segments| < 4 then Step(State(store, st.sink), Some(IndexError))
      else HandlePhase(State(store, st.sink), ev, parseTime)
  }

  /** The phase dispatch of `_handle_events` (segment 3). */
  function HandlePhase(st: State, ev: Event, parseTime: string -> Option<int>): (r: Step)
    requires StartsParse(st.store, parseTime)
    requires parseTime(ev.timestamp) == Some(ev.micros)
    requires Correlatable(ev) && ev.nodeId in st.store
    ensures StartsParse(r.state.store, parseTime)
  {
    var id, phase, sub := ev.nodeId, ev.segments[3], ev.segments[2];
    var slots := st.store[id];
    if phase == "error" then
      match Get(ev.data, "target_provision_state")
      case Err(e) => Step(st, Some(e))
      case Ok(_) =>
        var key := (id, ev.nodeName);
        var count := if key in st.sink.errors then st.sink.errors[key] else 0;
        Step(st.(sink := st.sink.(errors := st.sink.errors[key := count + 1])), None)
    else if phase == "start" then
      StartsParseWrite(st.store, parseTime, id, sub, ev.timestamp);
      Step(st.(store := st.store[id := slots[sub := ev.timestamp]]), None)
    else if (phase == "end" || phase == "success") && sub in slots then
      assert Slot(st.store, id, sub) == Some(slots[sub]);
      var started := parseTime(slots[sub]).value;
      var eventLabel := ev.segments[1] + "_" + sub;
      var elapsed := Timedelta.Difference(ev.micros, started).seconds;
      Step(st.(sink := st.sink.(durations := st.sink.durations[(id, ev.nodeName, eventLabel) := elapsed])), None)
    else
      Step(st, None)
  }

  /** The three lookups of `_set_provision_state`, in the source's order:
      provision_state, uuid, name. */
  function ReadStateFields(msg: Json): (r: Result<(Json, Json, Json), Exc>)
    ensures !msg.Obj? ==> r == Err(TypeError)
    ensures msg.Obj? ==>
      var m := msg.fields;
      && ("payload" !in m ==> r == Err(KeyError))
      && ("payload" in m && !m["payload"].Obj? ==> r == Err(TypeError))
      && ("payload" in m && m["payload"].Obj? ==>
        var p := m["payload"].fields;
        && (PayloadKey !in p ==> r == Err(KeyError))
        && (PayloadKey in p && !p[PayloadKey].Obj? ==> r == Err(TypeError))
        && (PayloadKey in p && p[PayloadKey].Obj? ==>
          var d := p[PayloadKey].fields;
          && (r.Ok? <==> "provision_state" in d && "uuid" in d && "name" in d)
          && (r.Ok? ==> r.value == (d["provision_state"], d["uuid"], d["name"]))
          && (r.Err? ==> r == Err(KeyError))))
  {
    var payload :- Get(msg, "payload");
    var data :- Get(payload, PayloadKey);
    var provisionState :- Get(data, "provision_state");
    var nodeId :- Get(data, "uuid");
    var nodeName :- Get(data, "name");
    Ok((provisionState, nodeId, nodeName))
  }

  /** `_set_provision_state`: sets the state gauge when the state name is in
      the table; testing membership of a list or dict raises TypeError. */
  function SetProvisionState(sink: Sink, msg: Json, table: map<string, int>): (r: Result<Sink, Exc>)
    ensures r.Ok? ==> r.value.durations == sink.durations && r.value.errors == sink.errors
    ensures r.Ok? ==> ReadStateFields(msg).Ok?
    ensures r == Err(KeyError) <==> ReadStateFields(msg) == Err(KeyError)
    ensures r == Err(TypeError) <==>
      ReadStateFields(msg) == Err(TypeError) || (ReadStateFields(msg).Ok? && !Hashable(ReadStateFields(msg).value.0))
    ensures r.Err? ==> r.error == KeyError || r.error == TypeError
  {
    var (provisionState, nodeId, nodeName) :- ReadStateFields(msg);
    if !Hashable(provisionState) then Err(TypeError)
    else if provisionState.Str? && provisionState.s in table then
      Ok(sink.(states := sink.states[(nodeId, nodeName) := table[provisionState.s]]))
    else Ok(sink)
  }

  /** `json.loads(text)`: TypeError for a value that is not a string,
      ValueError for text that is not JSON. */
  function Loads(text: Json, loads: string -> Option<Json>): Result<Json, Exc> {
    if !text.Str? then Err(TypeError)
    else match loads(text.s)
      case None => Err(ValueError)
      case Some(j) => Ok(j)
  }

  /** The two-layer envelope: the body is JSON whose 'oslo.message' field is
      itself JSON text holding the notification. */
  function Unwrap(body: string, loads: string -> Option<Json>): (r: Result<Json, Exc>)
    ensures r.Ok? <==>
      && loads(body).Some? && loads(body).value.Obj?
      && "oslo.message" in loads(body).value.fields
      && loads(body).value.fields["oslo.message"].Str?
      && loads(loads(body).value.fields["oslo.message"].s).Some?
    ensures r.Ok? ==> Some(r.value) == loads(loads(body).value.fields["oslo.message"].s)
    ensures r.Err? ==> r.error in {KeyError, TypeError, ValueError}
    ensures loads(body).None? ==> r == Err(ValueError)
    ensures loads(body).Some? && !loads(body).value.Obj? ==> r == Err(TypeError)
    ensures loads(body).Some? && loads(body).value.Obj? ==>
      var n := loads(body).value.fields;
      && ("oslo.message" !in n ==> r == Err(KeyError))
      && ("oslo.message" in n && !n["oslo.message"].Str? ==> r == Err(TypeError))
      && ("oslo.message" in n && n["oslo.message"].Str? && loads(n["oslo.message"].s).None? ==> r == Err(ValueError))
  {
    var notification :- Loads(Str(body), loads);
    var inner :- Get(notification, "oslo.message");
    Loads(inner, loads)
  }

  /** Lines 75-78 of `_callback`, given the decoded message. */
  function Dispatch(st: State, msg: Json, ext: Externals): (r: Step)
    requires StartsParse(st.store, ext.parseTime)
    ensures StartsParse(r.state.store, ext.parseTime)
    ensures r.raised != Some(KeyError)
  {
    var h := HandleEvents(st, msg, ext.parseTime);
    if h.raised == Some(KeyError) then Step(h.state, None)
    else if h.raised.Some? then h
    else match SetProvisionState(h.state.sink, msg, ext.provisionStates)
      case Ok(sink) => Step(State(h.state.store, sink), None)
      case Err(e) => Step(h.state, if e == KeyError then None else Some(e))
  }

  /** `_callback`: only KeyError is caught; anything else escapes. */
  function Callback(st: State, body: string, ext: Externals): (r: Step)
    requires StartsParse(st.store, ext.parseTime)
    ensures StartsParse(r.state.store, ext.parseTime)
    ensures r.raised != Some(KeyError)
  {
    match Unwrap(body, ext.loads)
    case Err(e) => Step(st, if e == KeyError then None else Some(e))
    case Ok(msg) => Dispatch(st, msg, ext)
  }

  /** Messages handed to `_callback` one at a time, in delivery order; the
      first exception that escapes ends the delivery. */
  function Deliver(st: State, bodies: seq<string>, ext: Externals): (r: Step)
    requires StartsParse(st.store, ext.parseTime)
    ensures StartsParse(r.state.store, ext.parseTime)
    ensures r.raised != Some(KeyError)
    decreases |bodies|
  {
    if bodies == [] then Step(st, None)
    else
      var first := Callback(st, bodies[0], ext);
      if first.raised.Some? then first else Deliver(first.state, bodies[1..], ext)
  }
}
