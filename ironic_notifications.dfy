/** The notification consumer session (`Notifications` in
    src/ironic_notifications.py): the correlation store and the metric series
    it updates in place, the message callback, one `run` of the session
    against a scripted broker, and the retry policy around `run`. */
module IronicNotifications {
  import opened Wrappers
  import opened JsonValue
  import Timedelta
  import opened IronicEvents

  const Exchange: string := "ironic"
  const SharedPrefix: string := "ironic_versioned_notifications."
  const OwnPrefix: string := "ironic_exporter_notification."
  const NotFoundCode: int := 404

  /** The queue a session consumes from: the shared queue of the routing key,
      or a private auto-deleting one. */
  function QueueName(useOwnChannel: bool, routingKey: string): string {
    (if useOwnChannel then OwnPrefix else SharedPrefix) + routingKey
  }

  /** The routing pattern the queue is bound with: always the shared name. */
  function BindingKey(routingKey: string): string {
    SharedPrefix + routingKey
  }

  /** The two queue namespaces never meet, and each names one routing key. */
  lemma QueueNamesDistinct(own: bool, key: string, own': bool, key': string)
    ensures QueueName(own, key) == QueueName(own', key') <==> own == own' && key == key'
    ensures QueueName(false, key) == BindingKey(key)
  {
    var q, q' := QueueName(own, key), QueueName(own', key');
    if own != own' {
      assert q[7] != q'[7];
    } else if q == q' {
      var p := if own then OwnPrefix else SharedPrefix;
      assert key == q[|p|..] && key' == q'[|p|..];
    }
  }

  /** The broker-side failures a step of `run` can meet. ConnectionError
      stands for `AMQPConnectionError` and its subclasses other than
      `ConnectionClosedByBroker`. */
  datatype Failure =
    | ConnectionError
    | ClosedByBroker
    | ChannelClosed(code: int)
    | Interrupt          // KeyboardInterrupt
    | Unclassified       // any other exception

  /** How `start_consuming` stops after the last delivery. */
  datatype Ending = ConsumerCancelled | Stopped(failure: Failure)

  /** What the broker does during one `run`: a failure (or none) for each of
      the connection set-up (connection, channel, prefetch), the private queue
      declaration, the binding and the consumer registration; then the
      message bodies delivered, and how consuming stops. */
  datatype Attempt = Attempt(
    connect: Option<Failure>,
    declare: Option<Failure>,
    bind: Option<Failure>,
    consume: Option<Failure>,
    deliveries: seq<string>,
    ending: Ending)

  /** The requests `run` makes of the broker, in order. */
  datatype Command =
    | Declare(queue: string, autoDelete: bool)
    | Bind(exchange: string, queue: string, routingKey: string)
    | Consume(queue: string, autoAck: bool)
    | StartConsuming
    | StopAndClose

  datatype Fault = Transport(failure: Failure) | CallbackFault(exc: Exc)

  /** How one `run` ends: three clean returns, or an exception. */
  datatype RunOutcome =
    | QueueNotFound       // ChannelClosed 404 while binding: return, do not consume
    | InterruptedClose    // KeyboardInterrupt while consuming: stop, close, return
    | ConsumingEnded      // start_consuming returned
    | Raised(fault: Fault)

  datatype RunResult = RunResult(state: State, calls: seq<Command>, outcome: RunOutcome)

  /** The `retry` decorator retries exactly these two exception kinds. */
  predicate Retried(o: RunOutcome) {
    o.Raised? && o.fault.Transport? && (o.fault.failure == ConnectionError || o.fault.failure == ClosedByBroker)
  }

  /** The `except ChannelClosed` around binding and consumer registration. */
  function BindFailure(f: Failure): RunOutcome {
    if f == ChannelClosed(NotFoundCode) then QueueNotFound else Raised(Transport(f))
  }

  /** One call of `run`, as a function of the state it starts from. */
  function RunSpec(st: State, useOwnChannel: bool, routingKey: string, a: Attempt, ext: Externals): (r: RunResult)
    requires StartsParse(st.store, ext.parseTime)
    ensures StartsParse(r.state.store, ext.parseTime)
  {
    var queue := QueueName(useOwnChannel, routingKey);
    var declared := if useOwnChannel then [Declare(queue, true)] else [];
    if a.connect.Some? then RunResult(st, [], Raised(Transport(a.connect.value)))
    else if useOwnChannel && a.declare.Some? then RunResult(st, declared, Raised(Transport(a.declare.value)))
    else
      var reset := State(map[], st.sink);
      var bound := declared + [Bind(Exchange, queue, BindingKey(routingKey))];
      if a.bind.Some? then RunResult(reset, bound, BindFailure(a.bind.value))
      else
        var registered := bound + [Consume(queue, true)];
        if a.consume.Some? then RunResult(reset, registered, BindFailure(a.consume.value))
        else
          ConsumeSpec(reset, registered + [StartConsuming], a, ext)
  }

  /** The consuming stage of `run`, from the state after set-up and the
      requests made so far. */
  function ConsumeSpec(st: State, calls: seq<Command>, a: Attempt, ext: Externals): (r: RunResult)
    requires StartsParse(st.store, ext.parseTime)
    ensures StartsParse(r.state.store, ext.parseTime)
  {
    var d := Deliver(st, a.deliveries, ext);
    if d.raised.Some? then RunResult(d.state, calls, Raised(CallbackFault(d.raised.value)))
    else match a.ending
      case ConsumerCancelled => RunResult(d.state, calls, ConsumingEnded)
      case Stopped(f) =>
        if f == Interrupt then RunResult(d.state, calls + [StopAndClose], InterruptedClose)
        else RunResult(d.state, calls, Raised(Transport(f)))
  }

  /** `run` under the `retry` decorator, given the script of successive
      attempts: it runs attempts in order while the outcome is retried and
      stops at the first outcome that is not (or when the script ends). */
  function Supervise(st: State, useOwnChannel: bool, routingKey: string, attempts: seq<Attempt>, ext: Externals)
    : (r: (State, seq<RunOutcome>))
    requires StartsParse(st.store, ext.parseTime)
    ensures StartsParse(r.0.store, ext.parseTime)
    ensures |r.1| <= |attempts| && (attempts != [] ==> r.1 != [])
    decreases |attempts|
  {
    if attempts == [] then (st, [])
    else
      var run := RunSpec(st, useOwnChannel, routingKey, attempts[0], ext);
      if Retried(run.outcome) then
        var rest := Supervise(run.state, useOwnChannel, routingKey, attempts[1..], ext);
        (rest.0, [run.outcome] + rest.1)
      else (run.state, [run.outcome])
  }

  /** The decorator gives up only on an outcome it does not retry: every
      outcome but the last was retried, and the last is one that is not
      retried unless the script ran out. */
  lemma {:induction false} SuperviseStopsAtFirstFinal(
    st: State, useOwnChannel: bool, routingKey: string, attempts: seq<Attempt>, ext: Externals)
    requires StartsParse(st.store, ext.parseTime)
    ensures var r := Supervise(st, useOwnChannel, routingKey, attempts, ext);
      (forall k :: 0 <= k < |r.1| - 1 ==> Retried(r.1[k])) &&
      (0 < |r.1| < |attempts| ==> !Retried(r.1[|r.1| - 1]))
    decreases |attempts|
  {
    if attempts != [] {
      var run := RunSpec(st, useOwnChannel, routingKey, attempts[0], ext);
      SuperviseStep(st, useOwnChannel, routingKey, attempts, ext, run);
      if Retried(run.outcome) {
        SuperviseStopsAtFirstFinal(run.state, useOwnChannel, routingKey, attempts[1..], ext);
        var rest := Supervise(run.state, useOwnChannel, routingKey, attempts[1..], ext);
        assert forall k :: 1 <= k < |rest.1| + 1 ==> ([run.outcome] + rest.1)[k] == rest.1[k - 1];
      }
    }
  }

  /** One retry step of the decorator. */
  lemma SuperviseStep(st: State, useOwnChannel: bool, routingKey: string, attempts: seq<Attempt>, ext: Externals, run: RunResult)
    requires StartsParse(st.store, ext.parseTime) && attempts != []
    requires run == RunSpec(st, useOwnChannel, routingKey, attempts[0], ext)
    ensures StartsParse(run.state.store, ext.parseTime)
    ensures Supervise(st, useOwnChannel, routingKey, attempts, ext) ==
      if Retried(run.outcome) then
        var rest := Supervise(run.state, useOwnChannel, routingKey, attempts[1..], ext);
        (rest.0, [run.outcome] + rest.1)
      else (run.state, [run.outcome])
  {
  }

  lemma AppendAssoc<T>(a: seq<T>, b: seq<T>, c: seq<T>)
    ensures (a + b) + c == a + (b + c)
  {
  }

  /** A failure while connecting, or while declaring the private queue,
      escapes `run` before the store is reset: the state is unchanged. */
  lemma SetUpFailureKeepsState(st: State, useOwnChannel: bool, routingKey: string, a: Attempt, ext: Externals)
    requires StartsParse(st.store, ext.parseTime)
    requires a.connect.Some? || (useOwnChannel && a.declare.Some?)
    ensures var r := RunSpec(st, useOwnChannel, routingKey, a, ext);
      && r.state == st
      && r.outcome == Raised(Transport(if a.connect.Some? then a.connect.value else a.declare.value))
      && r.calls == (if a.connect.Some? then [] else [Declare(QueueName(true, routingKey), true)])
  {
  }

  /** Once set-up succeeds the store is emptied: nothing `run` does from then
      on depends on the store it started from. */
  lemma ResetForgetsStore(st: State, st': State, useOwnChannel: bool, routingKey: string, a: Attempt, ext: Externals)
    requires StartsParse(st.store, ext.parseTime) && StartsParse(st'.store, ext.parseTime)
    requires st.sink == st'.sink
    requires a.connect.None? && (useOwnChannel ==> a.declare.None?)
    ensures RunSpec(st, useOwnChannel, routingKey, a, ext) == RunSpec(st', useOwnChannel, routingKey, a, ext)
  {
  }

  /** A ChannelClosed with code 404 while binding or registering the
      consumer makes `run` return, with the store emptied and without
      consuming; any other failure there escapes `run`. */
  lemma BindFailureOutcome(st: State, useOwnChannel: bool, routingKey: string, a: Attempt, ext: Externals)
    requires StartsParse(st.store, ext.parseTime)
    requires a.connect.None? && (useOwnChannel ==> a.declare.None?)
    requires a.bind.Some? || a.consume.Some?
    ensures var r := RunSpec(st, useOwnChannel, routingKey, a, ext);
      var f := if a.bind.Some? then a.bind.value else a.consume.value;
      var queue := QueueName(useOwnChannel, routingKey);
      && r.state == State(map[], st.sink)
      && r.calls == (if useOwnChannel then [Declare(queue, true)] else [])
                    + [Bind(Exchange, queue, BindingKey(routingKey))]
                    + (if a.bind.Some? then [] else [Consume(queue, true)])
      && StartConsuming !in r.calls
      && (f == ChannelClosed(NotFoundCode) ==> r.outcome == QueueNotFound && !Retried(r.outcome))
      && (f != ChannelClosed(NotFoundCode) ==> r.outcome == Raised(Transport(f)))
  {
  }

  /** After a clean set-up `run` consumes: the deliveries act on the emptied
      store; an exception escaping the callback ends `run`; a cancelled
      consumer returns; a KeyboardInterrupt stops consuming and closes the
      connection; any other failure escapes. */
  lemma ConsumingOutcome(st: State, useOwnChannel: bool, routingKey: string, a: Attempt, ext: Externals)
    requires StartsParse(st.store, ext.parseTime)
    requires a.connect.None? && (useOwnChannel ==> a.declare.None?) && a.bind.None? && a.consume.None?
    ensures var r := RunSpec(st, useOwnChannel, routingKey, a, ext);
      var d := Deliver(State(map[], st.sink), a.deliveries, ext);
      var queue := QueueName(useOwnChannel, routingKey);
      && r.state == d.state
      && r.calls == (if useOwnChannel then [Declare(queue, true)] else [])
                    + [Bind(Exchange, queue, BindingKey(routingKey)), Consume(queue, true), StartConsuming]
                    + (if r.outcome == InterruptedClose then [StopAndClose] else [])
      && (d.raised.Some? ==> r.outcome == Raised(CallbackFault(d.raised.value)))
      && (d.raised.None? && a.ending == ConsumerCancelled ==> r.outcome == ConsumingEnded)
      && (d.raised.None? && a.ending == Stopped(Interrupt) ==> r.outcome == InterruptedClose)
      && (d.raised.None? && a.ending.Stopped? && a.ending.failure != Interrupt ==>
            r.outcome == Raised(Transport(a.ending.failure)))
  {
    var queue := QueueName(useOwnChannel, routingKey);
    var declared: seq<Command> := if useOwnChannel then [Declare(queue, true)] else [];
    assert declared + [Bind(Exchange, queue, BindingKey(routingKey))] + [Consume(queue, true)] + [StartConsuming]
        == declared + [Bind(Exchange, queue, BindingKey(routingKey)), Consume(queue, true), StartConsuming];
  }

  /** The decorator does not retry a queue that was not found: the first
      attempt whose binding meets a 404 is the last. */
  lemma QueueNotFoundNotRetried(
    st: State, useOwnChannel: bool, routingKey: string, a: Attempt, rest: seq<Attempt>, ext: Externals)
    requires StartsParse(st.store, ext.parseTime)
    requires a.connect.None? && (useOwnChannel ==> a.declare.None?)
    requires a.bind == Some(ChannelClosed(NotFoundCode))
    ensures var s := Supervise(st, useOwnChannel, routingKey, [a] + rest, ext);
      s.1 == [QueueNotFound] && s.0 == State(map[], st.sink)
  {
    assert ([a] + rest)[0] == a;
  }

  /** A connection the broker closes while consuming is retried: the decorator
      goes on with the next attempt from the state the deliveries left. */
  lemma BrokerCloseRetried(
    st: State, useOwnChannel: bool, routingKey: string, a: Attempt, rest: seq<Attempt>, ext: Externals)
    requires StartsParse(st.store, ext.parseTime)
    requires a.connect.None? && (useOwnChannel ==> a.declare.None?) && a.bind.None? && a.consume.None?
    requires a.ending == Stopped(ClosedByBroker)
    requires Deliver(State(map[], st.sink), a.deliveries, ext).raised == None
    ensures var d := Deliver(State(map[], st.sink), a.deliveries, ext);
      Supervise(st, useOwnChannel, routingKey, [a] + rest, ext) ==
        var s := Supervise(d.state, useOwnChannel, routingKey, rest, ext);
        (s.0, [Raised(Transport(ClosedByBroker))] + s.1)
  {
    assert ([a] + rest)[0] == a && ([a] + rest)[1..] == rest;
  }

  /** An exception escaping the message callback is not retried: the session
      ends with the first attempt whose deliveries raise. */
  lemma CallbackFaultNotRetried(
    st: State, useOwnChannel: bool, routingKey: string, a: Attempt, rest: seq<Attempt>, ext: Externals)
    requires StartsParse(st.store, ext.parseTime)
    requires a.connect.None? && (useOwnChannel ==> a.declare.None?) && a.bind.None? && a.consume.None?
    requires Deliver(State(map[], st.sink), a.deliveries, ext).raised.Some?
    ensures var d := Deliver(State(map[], st.sink), a.deliveries, ext);
      Supervise(st, useOwnChannel, routingKey, [a] + rest, ext) == (d.state, [Raised(CallbackFault(d.raised.value))])
  {
    assert ([a] + rest)[0] == a;
  }

  class Notifications {
    const region: string
    const routingKey: string
    const useOwnChannel: bool
    const ext: Externals
    /** `nodes_status`: node id -> subcategory -> raw start timestamp. */
    var nodesStatus: Store
    /** The metric series this session writes. */
    var sink: Sink

    ghost predicate Valid()
      reads this
    {
      StartsParse(nodesStatus, ext.parseTime)
    }

    function Snapshot(): State
      reads this
    {
      State(nodesStatus, sink)
    }

    constructor (region: string, routingKey: string, useOwnChannel: bool, ext: Externals, sink: Sink)
      ensures Valid()
      ensures this.region == region && this.routingKey == routingKey
      ensures this.useOwnChannel == useOwnChannel && this.ext == ext
      ensures nodesStatus == map[] && this.sink == sink
    {
      this.region := region;
      this.routingKey := routingKey;
      this.useOwnChannel := useOwnChannel;
      this.ext := ext;
      this.nodesStatus := map[];
      this.sink := sink;
    }

    /** `_handle_events`: the try block (lines 90-101), then the rest. */
    method HandleEvents(msg: Json) returns (raised: Option<Exc>)
      requires Valid()
      modifies this
      ensures Valid()
      ensures Step(Snapshot(), raised) == IronicEvents.HandleEvents(old(Snapshot()), msg, ext.parseTime)
    {
      var decoded := Decode(msg, ext.parseTime);
      if decoded.Err? {
        raised := if decoded.error == KeyError then None else Some(decoded.error);
        return;
      }
      raised := HandleDecoded(decoded.value);
    }

    /** `_handle_events` from line 103 on, for a decoded event. */
    method HandleDecoded(ev: Event) returns (raised: Option<Exc>)
      requires Valid()
      requires ext.parseTime(ev.timestamp) == Some(ev.micros)
      modifies this
      ensures Valid()
      ensures Step(Snapshot(), raised) == IronicEvents.HandleDecoded(old(Snapshot()), ev, ext.parseTime)
    {
      if ev.nodeName == Null {
        return None;
      }
      if !Hashable(ev.nodeId) {
        return Some(TypeError);
      }
      if ev.nodeId !in nodesStatus {
        StartsParseNewNode(nodesStatus, ext.parseTime, ev.nodeId);
        nodesStatus := nodesStatus[ev.nodeId := map[]];
      }
      if |ev.segments| < 4 {
        return Some(IndexError);
      }
      var phase, sub := ev.segments[3], ev.segments[2];
      if phase != "error" {
        if phase == "start" {
          StartsParseWrite(nodesStatus, ext.parseTime, ev.nodeId, sub, ev.timestamp);
          nodesStatus := nodesStatus[ev.nodeId := nodesStatus[ev.nodeId][sub := ev.timestamp]];
        }
        if phase == "end" || phase == "success" {
          if sub in nodesStatus[ev.nodeId] {
            assert Slot(nodesStatus, ev.nodeId, sub) == Some(nodesStatus[ev.nodeId][sub]);
            var started := ext.parseTime(nodesStatus[ev.nodeId][sub]).value;
            var delta := Timedelta.Difference(ev.micros, started);
            var eventLabel := ev.segments[1] + "_" + sub;
            sink := sink.(durations := sink.durations[(ev.nodeId, ev.nodeName, eventLabel) := delta.seconds]);
          }
        }
      } else {
        var target := Get(ev.data, "target_provision_state");
        if target.Err? {
          return Some(target.error);
        }
        var key := (ev.nodeId, ev.nodeName);
        var count := if key in sink.errors then sink.errors[key] else 0;
        sink := sink.(errors := sink.errors[key := count + 1]);
      }
      raised := None;
    }

    /** `_set_provision_state`. */
    method SetProvisionState(msg: Json) returns (raised: Option<Exc>)
      requires Valid()
      modifies this
      ensures Valid() && nodesStatus == old(nodesStatus)
      ensures match IronicEvents.SetProvisionState(old(sink), msg, ext.provisionStates)
        case Ok(s) => sink == s && raised == None
        case Err(e) => sink == old(sink) && raised == Some(e)
    {
      var fields := ReadStateFields(msg);
      if fields.Err? {
        return Some(fields.error);
      }
      var (provisionState, nodeId, nodeName) := fields.value;
      if !Hashable(provisionState) {
        return Some(TypeError);
      }
      if provisionState.Str? && provisionState.s in ext.provisionStates {
        sink := sink.(states := sink.states[(nodeId, nodeName) := ext.provisionStates[provisionState.s]]);
      }
      raised := None;
    }

    /** `_callback`: unwrap the envelope, then `_handle_events` and
      `_set_provision_state`, catching KeyError only. */
    method Callback(body: string) returns (raised: Option<Exc>)
      requires Valid()
      modifies this
      ensures Valid()
      ensures Step(Snapshot(), raised) == IronicEvents.Callback(old(Snapshot()), body, ext)
    {
      var msg := Unwrap(body, ext.loads);
      if msg.Err? {
        raised := if msg.error == KeyError then None else Some(msg.error);
        return;
      }
      raised := HandleEvents(msg.value);
      if raised == Some(KeyError) {
        return None;
      }
      if raised.Some? {
        return;
      }
      raised := SetProvisionState(msg.value);
      if raised == Some(KeyError) {
        raised := None;
      }
    }

    /** `start_consuming`: the callback on each delivered body in turn,
        until one raises. */
    method DispatchDeliveries(deliveries: seq<string>) returns (raised: Option<Exc>)
      requires Valid()
      modifies this
      ensures Valid()
      ensures Step(Snapshot(), raised) == Deliver(old(Snapshot()), deliveries, ext)
    {
      var i := 0;
      while i < |deliveries|
        invariant 0 <= i <= |deliveries|
        invariant Valid()
        invariant Deliver(old(Snapshot()), deliveries, ext) == Deliver(Snapshot(), deliveries[i..], ext)
      {
        assert deliveries[i..][0] == deliveries[i] && deliveries[i..][1..] == deliveries[i + 1..];
        raised := Callback(deliveries[i]);
        if raised.Some? {
          return;
        }
        i := i + 1;
      }
      assert deliveries[i..] == [];
      raised := None;
    }

    /** `run`: set up, reset the store, bind, register, then consume. */
    method Run(a: Attempt) returns (calls: seq<Command>, outcome: RunOutcome)
      requires Valid()
      modifies this
      ensures Valid()
      ensures RunResult(Snapshot(), calls, outcome) == RunSpec(old(Snapshot()), useOwnChannel, routingKey, a, ext)
    {
      calls := [];
      if a.connect.Some? {
        return calls, Raised(Transport(a.connect.value));
      }
      var queue := QueueName(useOwnChannel, routingKey);
      if useOwnChannel {
        calls := calls + [Declare(queue, true)];
        if a.declare.Some? {
          return calls, Raised(Transport(a.declare.value));
        }
      }
      nodesStatus := map[];
      calls := calls + [Bind(Exchange, queue, BindingKey(routingKey))];
      if a.bind.Some? {
        return calls, BindFailure(a.bind.value);
      }
      calls := calls + [Consume(queue, true)];
      if a.consume.Some? {
        return calls, BindFailure(a.consume.value);
      }
      calls, outcome := ConsumeUntilStopped(a, calls + [StartConsuming]);
    }

    /** The consuming stage of `run`: deliveries, then how consuming stops. */
    method ConsumeUntilStopped(a: Attempt, callsBefore: seq<Command>) returns (calls: seq<Command>, outcome: RunOutcome)
      requires Valid()
      modifies this
      ensures Valid()
      ensures RunResult(Snapshot(), calls, outcome) == ConsumeSpec(old(Snapshot()), callsBefore, a, ext)
    {
      calls := callsBefore;
      var raised := DispatchDeliveries(a.deliveries);
      if raised.Some? {
        return calls, Raised(CallbackFault(raised.value));
      }
      match a.ending {
        case ConsumerCancelled =>
          outcome := ConsumingEnded;
        case Stopped(f) =>
          if f == Interrupt {
            calls := calls + [StopAndClose];
            outcome := InterruptedClose;
          } else {
            outcome := Raised(Transport(f));
          }
      }
    }

    /** `run` under the `retry` decorator. The decorator's delays and jitter
        are not modelled. */
    method RunRetrying(attempts: seq<Attempt>) returns (outcomes: seq<RunOutcome>)
      requires Valid()
      modifies this
      ensures Valid()
      ensures (Snapshot(), outcomes) == Supervise(old(Snapshot()), useOwnChannel, routingKey, attempts, ext)
    {
      outcomes := [];
      var i := 0;
      assert attempts[i..] == attempts;
      assert outcomes + Supervise(Snapshot(), useOwnChannel, routingKey, attempts, ext).1
          == Supervise(Snapshot(), useOwnChannel, routingKey, attempts, ext).1;
      while i < |attempts|
        invariant 0 <= i <= |attempts|
        invariant Valid()
        invariant var s := Supervise(Snapshot(), useOwnChannel, routingKey, attempts[i..], ext);
          Supervise(old(Snapshot()), useOwnChannel, routingKey, attempts, ext) == (s.0, outcomes + s.1)
      {
        ghost var before := Snapshot();
        assert attempts[i..][0] == attempts[i] && attempts[i..][1..] == attempts[i + 1..];
        var calls, outcome := Run(attempts[i]);
        SuperviseStep(before, useOwnChannel, routingKey, attempts[i..], ext, RunResult(Snapshot(), calls, outcome));
        ghost var prev := outcomes;
        outcomes := outcomes + [outcome];
        if !Retried(outcome) {
          return;
        }
        AppendAssoc(prev, [outcome], Supervise(Snapshot(), useOwnChannel, routingKey, attempts[i + 1..], ext).1);
        i := i + 1;
      }
      assert attempts[i..] == [];
      assert outcomes + [] == outcomes;
    }
  }
}
