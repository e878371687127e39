/** What the consumer's message pipeline promises, proved about the
    functions of module IronicEvents. */
module IronicEventsProperties {
  import opened Wrappers
  import opened JsonValue
  import opened IronicEvents
  import Timedelta

  /** A `start` event stores its raw timestamp for `(node_id, subcategory)`,
      replacing an earlier unmatched start, and changes nothing else. */
  lemma StartRecordsTimestamp(st: State, msg: Json, parseTime: string -> Option<int>, ev: Event)
    requires StartsParse(st.store, parseTime)
    requires Decode(msg, parseTime) == Ok(ev)
    requires Correlatable(ev) && ev.segments[3] == "start"
    ensures var r := HandleEvents(st, msg, parseTime);
      && r.raised == None && r.state.sink == st.sink
      && Slot(r.state.store, ev.nodeId, ev.segments[2]) == Some(ev.timestamp)
      && forall n, c :: (n, c) != (ev.nodeId, ev.segments[2]) ==> Slot(r.state.store, n, c) == Slot(st.store, n, c)
  {
  }

  /** An `end` or `success` event with a stored start sets the duration gauge
      labelled `<category>_<subcategory>` to the `.seconds` of the elapsed
      time, and leaves the stored start in place. */
  lemma EndSetsDuration(st: State, msg: Json, parseTime: string -> Option<int>, ev: Event, start: string)
    requires StartsParse(st.store, parseTime)
    requires Decode(msg, parseTime) == Ok(ev)
    requires Correlatable(ev) && (ev.segments[3] == "end" || ev.segments[3] == "success")
    requires Slot(st.store, ev.nodeId, ev.segments[2]) == Some(start)
    ensures parseTime(start).Some?
    ensures var r := HandleEvents(st, msg, parseTime);
      && r.raised == None
      && r.state.store == st.store
      && r.state.sink.errors == st.sink.errors && r.state.sink.states == st.sink.states
      && r.state.sink.durations == st.sink.durations[
           (ev.nodeId, ev.nodeName, ev.segments[1] + "_" + ev.segments[2]) :=
             Timedelta.Difference(ev.micros, parseTime(start).value).seconds]
  {
  }

  /** An `end` or `success` event with no stored start changes no metric and
      no stored start; the node has an entry afterwards, empty if it was not
      yet seen. */
  lemma EndWithoutStart(st: State, msg: Json, parseTime: string -> Option<int>, ev: Event)
    requires StartsParse(st.store, parseTime)
    requires Decode(msg, parseTime) == Ok(ev)
    requires Correlatable(ev) && (ev.segments[3] == "end" || ev.segments[3] == "success")
    requires Slot(st.store, ev.nodeId, ev.segments[2]) == None
    ensures var r := HandleEvents(st, msg, parseTime);
      && r.raised == None && r.state.sink == st.sink
      && ev.nodeId in r.state.store
      && forall n, c :: Slot(r.state.store, n, c) == Slot(st.store, n, c)
  {
  }

  /** An `error` event carrying `target_provision_state` adds exactly one to
      the node's error counter; without it, the KeyError escapes and the
      counter is untouched. Stored starts never change, but the node has an
      entry afterwards either way. */
  lemma ErrorCounts(st: State, msg: Json, parseTime: string -> Option<int>, ev: Event)
    requires StartsParse(st.store, parseTime)
    requires Decode(msg, parseTime) == Ok(ev)
    requires Correlatable(ev) && ev.segments[3] == "error"
    ensures var r := HandleEvents(st, msg, parseTime);
      var key := (ev.nodeId, ev.nodeName);
      && ev.nodeId in r.state.store
      && (forall n, c :: Slot(r.state.store, n, c) == Slot(st.store, n, c))
      && r.state.sink.durations == st.sink.durations && r.state.sink.states == st.sink.states
      && ("target_provision_state" in ev.data.fields ==>
            && r.raised == None
            && r.state.sink.errors == st.sink.errors[key := (if key in st.sink.errors then st.sink.errors[key] else 0) + 1])
      && ("target_provision_state" !in ev.data.fields ==>
            r.raised == Some(KeyError) && r.state.sink == st.sink)
  {
  }

  /** Any other phase only logs. */
  lemma OtherPhaseOnlyLogs(st: State, msg: Json, parseTime: string -> Option<int>, ev: Event)
    requires StartsParse(st.store, parseTime)
    requires Decode(msg, parseTime) == Ok(ev)
    requires Correlatable(ev) && ev.segments[3] !in {"start", "end", "success", "error"}
    ensures var r := HandleEvents(st, msg, parseTime);
      && r.raised == None && r.state.sink == st.sink
      && forall n, c :: Slot(r.state.store, n, c) == Slot(st.store, n, c)
  {
  }

  /** A KeyError while reading the message, or a null node name, returns
      before the store is touched; `_callback` then still runs
      `_set_provision_state`. */
  lemma EarlyReturnStillSetsState(st: State, msg: Json, ext: Externals)
    requires StartsParse(st.store, ext.parseTime)
    requires Decode(msg, ext.parseTime) == Err(KeyError)
          || (Decode(msg, ext.parseTime).Ok? && Decode(msg, ext.parseTime).value.nodeName == Null)
    ensures HandleEvents(st, msg, ext.parseTime) == Step(st, None)
    ensures var r := Dispatch(st, msg, ext);
      && r.state.store == st.store
      && match SetProvisionState(st.sink, msg, ext.provisionStates)
         case Ok(sink) => r == Step(State(st.store, sink), None)
         case Err(e) => r.state == st && r.raised == (if e == KeyError then None else Some(e))
  {
  }

  /** A named event whose type has fewer than four segments: the node's empty
      entry is added first, then indexing segment 3 raises IndexError, which
      `_callback` does not catch; the entry stays and no metric moves. */
  lemma ShortEventTypeRaises(st: State, body: string, ext: Externals, msg: Json, ev: Event)
    requires StartsParse(st.store, ext.parseTime)
    requires Unwrap(body, ext.loads) == Ok(msg) && Decode(msg, ext.parseTime) == Ok(ev)
    requires ev.nodeName != Null && Hashable(ev.nodeId) && |ev.segments| < 4
    ensures var r := Callback(st, body, ext);
      && r.raised == Some(IndexError)
      && ev.nodeId in r.state.store
      && r.state.sink == st.sink
      && forall n, c :: Slot(r.state.store, n, c) == Slot(st.store, n, c)
  {
  }

  /** A timestamp that is a string but not in the expected format raises
      ValueError out of `_callback`, before anything is changed. */
  lemma BadTimestampRaises(st: State, body: string, ext: Externals, msg: Json)
    requires StartsParse(st.store, ext.parseTime)
    requires Unwrap(body, ext.loads) == Ok(msg)
    requires msg.Obj? && "event_type" in msg.fields && msg.fields["event_type"].Str?
    requires "timestamp" in msg.fields && msg.fields["timestamp"].Str?
    requires ext.parseTime(msg.fields["timestamp"].s) == None
    ensures Callback(st, body, ext) == Step(st, Some(ValueError))
  {
  }

  /** An error event without `target_provision_state`: `_callback` catches the
      KeyError, so neither the error counter nor the state gauge moves. */
  lemma MissingTargetSkipsState(st: State, msg: Json, ext: Externals, ev: Event)
    requires StartsParse(st.store, ext.parseTime)
    requires Decode(msg, ext.parseTime) == Ok(ev)
    requires Correlatable(ev) && ev.segments[3] == "error"
    requires "target_provision_state" !in ev.data.fields
    ensures var r := Dispatch(st, msg, ext);
      r.raised == None && r.state.sink == st.sink
  {
    ErrorCounts(st, msg, ext.parseTime, ev);
  }

  /** `_set_provision_state` sets the state gauge of `(node_id, node_name)` to
      the table's code exactly when the state name is in the table. */
  lemma ProvisionStateGauge(sink: Sink, msg: Json, table: map<string, int>, sink': Sink)
    requires SetProvisionState(sink, msg, table) == Ok(sink')
    ensures sink'.durations == sink.durations && sink'.errors == sink.errors
    ensures var data := msg.fields["payload"].fields[PayloadKey];
      var ps := data.fields["provision_state"];
      var key := (data.fields["uuid"], data.fields["name"]);
      && (ps.Str? && ps.s in table ==> sink'.states == sink.states[key := table[ps.s]])
      && (!(ps.Str? && ps.s in table) ==> sink' == sink)
  {
  }

  lemma PhaseSlotFrame(st: State, ev: Event, parseTime: string -> Option<int>, id: Json, sub: string)
    requires StartsParse(st.store, parseTime)
    requires parseTime(ev.timestamp) == Some(ev.micros)
    requires !(Correlatable(ev) && ev.segments[3] == "start" && ev.nodeId == id && ev.segments[2] == sub)
    ensures Slot(HandleDecoded(st, ev, parseTime).state.store, id, sub) == Slot(st.store, id, sub)
  {
  }

  /** `_set_provision_state` never touches the store. */
  lemma DispatchStore(st: State, msg: Json, ext: Externals)
    requires StartsParse(st.store, ext.parseTime)
    ensures Dispatch(st, msg, ext).state.store == HandleEvents(st, msg, ext.parseTime).state.store
    ensures Dispatch(st, msg, ext).state.sink.durations == HandleEvents(st, msg, ext.parseTime).state.sink.durations
  {
    var h := HandleEvents(st, msg, ext.parseTime);
    if h.raised == None {
      match SetProvisionState(h.state.sink, msg, ext.provisionStates)
      case Ok(sink) =>
        assert sink.durations == h.state.sink.durations;
      case Err(_) =>
    }
  }

  /** Only a `start` event for `(id, sub)` can change what is stored under
      `(id, sub)`; every other message leaves it as it was. */
  lemma SlotFrame(st: State, body: string, ext: Externals, id: Json, sub: string)
    requires StartsParse(st.store, ext.parseTime)
    requires !BodyWritesStart(body, ext, id, sub)
    ensures Slot(Callback(st, body, ext).state.store, id, sub) == Slot(st.store, id, sub)
  {
    match Unwrap(body, ext.loads)
    case Err(_) =>
    case Ok(msg) =>
      DispatchStore(st, msg, ext);
      match Decode(msg, ext.parseTime)
      case Err(_) =>
      case Ok(ev) =>
        PhaseSlotFrame(st, ev, ext.parseTime, id, sub);
  }

  /** Delivering two batches is delivering the first, then, unless it
      raised, the second. */
  lemma {:induction false} DeliverAppend(st: State, a: seq<string>, b: seq<string>, ext: Externals)
    requires StartsParse(st.store, ext.parseTime)
    ensures var d := Deliver(st, a, ext);
      Deliver(st, a + b, ext) == if d.raised.Some? then d else Deliver(d.state, b, ext)
    decreases |a|
  {
    if a != [] {
      assert (a + b)[0] == a[0] && (a + b)[1..] == a[1..] + b;
      var first := Callback(st, a[0], ext);
      if first.raised == None {
        DeliverAppend(first.state, a[1..], b, ext);
      }
    } else {
      assert a + b == b;
    }
  }

  /** A stored start survives any run of messages none of which is a `start`
      for the same node and subcategory. */
  lemma {:induction false} SlotSurvives(st: State, bodies: seq<string>, ext: Externals, id: Json, sub: string)
    requires StartsParse(st.store, ext.parseTime)
    requires NoRestart(bodies, ext, id, sub)
    ensures Slot(Deliver(st, bodies, ext).state.store, id, sub) == Slot(st.store, id, sub)
    decreases |bodies|
  {
    if bodies != [] {
      SlotFrame(st, bodies[0], ext, id, sub);
      var first := Callback(st, bodies[0], ext);
      if first.raised == None {
        SlotSurvives(first.state, bodies[1..], ext, id, sub);
      }
    }
  }

  lemma DeliverCons(st: State, body: string, rest: seq<string>, ext: Externals)
    requires StartsParse(st.store, ext.parseTime)
    ensures var first := Callback(st, body, ext);
      Deliver(st, [body] + rest, ext) == if first.raised.Some? then first else Deliver(first.state, rest, ext)
  {
    assert ([body] + rest)[0] == body && ([body] + rest)[1..] == rest;
  }

  /** What `_callback` does to the store and the duration gauge is what
      `_handle_events` does. */
  lemma CallbackAsHandleEvents(st: State, body: string, ext: Externals, msg: Json)
    requires StartsParse(st.store, ext.parseTime)
    requires Unwrap(body, ext.loads) == Ok(msg)
    ensures var h := HandleEvents(st, msg, ext.parseTime);
      var r := Callback(st, body, ext);
      r.state.store == h.state.store && r.state.sink.durations == h.state.sink.durations
  {
    DispatchStore(st, msg, ext);
  }

  lemma DeliverLast(st: State, a: seq<string>, body: string, ext: Externals)
    requires StartsParse(st.store, ext.parseTime)
    requires Deliver(st, a, ext).raised == None
    ensures Deliver(st, a + [body], ext).state == Callback(Deliver(st, a, ext).state, body, ext).state
  {
    DeliverAppend(st, a, [body], ext);
    DeliverCons(Deliver(st, a, ext).state, body, [], ext);
    assert [body] + [] == [body];
  }

  lemma StartSurvives(st: State, startBody: string, middle: seq<string>, ext: Externals, startMsg: Json, ev0: Event)
    requires StartsParse(st.store, ext.parseTime)
    requires Unwrap(startBody, ext.loads) == Ok(startMsg) && Decode(startMsg, ext.parseTime) == Ok(ev0)
    requires Correlatable(ev0) && ev0.segments[3] == "start"
    requires NoRestart(middle, ext, ev0.nodeId, ev0.segments[2])
    requires Deliver(st, [startBody] + middle, ext).raised == None
    ensures Slot(Deliver(st, [startBody] + middle, ext).state.store, ev0.nodeId, ev0.segments[2]) == Some(ev0.timestamp)
  {
    var first := Callback(st, startBody, ext);
    StartRecordsTimestamp(st, startMsg, ext.parseTime, ev0);
    CallbackAsHandleEvents(st, startBody, ext, startMsg);
    DeliverCons(st, startBody, middle, ext);
    SlotSurvives(first.state, middle, ext, ev0.nodeId, ev0.segments[2]);
  }

  /** The ending message, delivered when the start is stored, sets the gauge. */
  lemma EndAfterStart(before: State, endBody: string, ext: Externals, endMsg: Json, ev1: Event, start: string)
    requires StartsParse(before.store, ext.parseTime)
    requires Unwrap(endBody, ext.loads) == Ok(endMsg) && Decode(endMsg, ext.parseTime) == Ok(ev1)
    requires Correlatable(ev1) && (ev1.segments[3] == "end" || ev1.segments[3] == "success")
    requires Slot(before.store, ev1.nodeId, ev1.segments[2]) == Some(start)
    ensures ext.parseTime(start).Some?
    ensures var s := Callback(before, endBody, ext).state;
      var key := (ev1.nodeId, ev1.nodeName, ev1.segments[1] + "_" + ev1.segments[2]);
      key in s.sink.durations && s.sink.durations[key] == Timedelta.Difference(ev1.micros, ext.parseTime(start).value).seconds
  {
    CallbackAsHandleEvents(before, endBody, ext, endMsg);
    EndSetsDuration(before, endMsg, ext.parseTime, ev1, start);
  }

  /** The ending message, delivered after a run of messages that left the
      start stored, sets the gauge. */
  lemma EndAfterRun(st: State, a: seq<string>, endBody: string, ext: Externals, endMsg: Json, ev1: Event, start: string, micros: int)
    requires StartsParse(st.store, ext.parseTime)
    requires Unwrap(endBody, ext.loads) == Ok(endMsg) && Decode(endMsg, ext.parseTime) == Ok(ev1)
    requires Correlatable(ev1) && (ev1.segments[3] == "end" || ev1.segments[3] == "success")
    requires Deliver(st, a, ext).raised == None
    requires Slot(Deliver(st, a, ext).state.store, ev1.nodeId, ev1.segments[2]) == Some(start)
    requires ext.parseTime(start) == Some(micros)
    ensures var s := Deliver(st, a + [endBody], ext).state;
      var key := (ev1.nodeId, ev1.nodeName, ev1.segments[1] + "_" + ev1.segments[2]);
      key in s.sink.durations && s.sink.durations[key] == Timedelta.Difference(ev1.micros, micros).seconds
  {
    DeliverLast(st, a, endBody, ext);
    EndAfterStart(Deliver(st, a, ext).state, endBody, ext, endMsg, ev1, start);
  }

  /** Correlation over a session: after a `start` for `(node_id, sub)`, any
      messages that do not restart the same pair, and a matching `end` or
      `success`, the duration gauge holds the `.seconds` of the time between
      the two events, whatever else the session saw in between. The category
      (segment 1) of the two events may differ: the gauge is labelled with the
      category of the ending event. */
  lemma {:induction false} StartThenEnd(
    st: State, startBody: string, middle: seq<string>, endBody: string, ext: Externals,
    startMsg: Json, endMsg: Json, ev0: Event, ev1: Event)
    requires StartsParse(st.store, ext.parseTime)
    requires Unwrap(startBody, ext.loads) == Ok(startMsg) && Decode(startMsg, ext.parseTime) == Ok(ev0)
    requires Correlatable(ev0) && ev0.segments[3] == "start"
    requires Unwrap(endBody, ext.loads) == Ok(endMsg) && Decode(endMsg, ext.parseTime) == Ok(ev1)
    requires Correlatable(ev1) && (ev1.segments[3] == "end" || ev1.segments[3] == "success")
    requires ev1.nodeId == ev0.nodeId && ev1.segments[2] == ev0.segments[2]
    requires NoRestart(middle, ext, ev0.nodeId, ev0.segments[2])
    requires Deliver(st, [startBody] + middle, ext).raised == None
    ensures var s := Deliver(st, [startBody] + middle + [endBody], ext).state;
      var key := (ev1.nodeId, ev1.nodeName, ev1.segments[1] + "_" + ev1.segments[2]);
      key in s.sink.durations && s.sink.durations[key] == Timedelta.Difference(ev1.micros, ev0.micros).seconds
  {
    assert ext.parseTime(ev0.timestamp) == Some(ev0.micros);
    StartSurvives(st, startBody, middle, ext, startMsg, ev0);
    EndAfterRun(st, [startBody] + middle, endBody, ext, endMsg, ev1, ev0.timestamp, ev0.micros);
  }
}
