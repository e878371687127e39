/** Leftover-port accounting (`Ports` in src/ironic_ports.py). The Ironic and
    Neutron clients are replaced by what they answer: the node list, each
    node's port MAC addresses in Ironic order, and the ids of the Neutron
    ports carrying a MAC address in Neutron order. The two gauges are maps
    from node uuid to the value last set. */
module IronicPorts {

  const Available: string := "available"
  const WaitCallBack: string := "wait call-back"

  /** The fields of an Ironic node the exporter reads. */
  datatype Node = Node(uuid: string, provisionState: string)

  /** The Neutron port ids matched by a sequence of MAC addresses: for each
      address in turn, every Neutron port carrying it, in Neutron order. */
  function Matched(macs: seq<string>, neutronPorts: string -> seq<string>): seq<string>
    decreases |macs|
  {
    if macs == [] then []
    else Matched(macs[..|macs| - 1], neutronPorts) + neutronPorts(macs[|macs| - 1])
  }

  /** Matching distributes over the Ironic port order. */
  lemma {:induction false} MatchedAppend(a: seq<string>, b: seq<string>, neutronPorts: string -> seq<string>)
    ensures Matched(a + b, neutronPorts) == Matched(a, neutronPorts) + Matched(b, neutronPorts)
    decreases |b|
  {
    if b == [] {
      assert a + b == a;
    } else {
      var b' := b[..|b| - 1];
      assert (a + b)[..|a + b| - 1] == a + b';
      MatchedAppend(a, b', neutronPorts);
    }
  }

  /** An id is reported exactly when some port of the node has a MAC address
      that a Neutron port with that id carries. */
  lemma {:induction false} MatchedMembers(macs: seq<string>, neutronPorts: string -> seq<string>, id: string)
    ensures id in Matched(macs, neutronPorts) <==> exists k :: 0 <= k < |macs| && id in neutronPorts(macs[k])
    decreases |macs|
  {
    if macs != [] {
      var init := macs[..|macs| - 1];
      MatchedMembers(init, neutronPorts, id);
      if id in Matched(macs, neutronPorts) {
        if id in Matched(init, neutronPorts) {
          var k :| 0 <= k < |init| && id in neutronPorts(init[k]);
          assert macs[k] == init[k];
        } else {
          assert id in neutronPorts(macs[|macs| - 1]);
        }
      } else {
        forall k | 0 <= k < |macs|
          ensures id !in neutronPorts(macs[k])
        {
          if k < |init| {
            assert macs[k] == init[k];
          }
        }
      }
    }
  }

  /** The number of Neutron ports matched, MAC address by MAC address. */
  function MatchCount(macs: seq<string>, neutronPorts: string -> seq<string>): nat
    decreases |macs|
  {
    if macs == [] then 0 else |neutronPorts(macs[0])| + MatchCount(macs[1..], neutronPorts)
  }

  /** The gauge counts every matched port: the sum over the node's ports of
      the Neutron ports carrying its address. */
  lemma {:induction false} MatchedCount(macs: seq<string>, neutronPorts: string -> seq<string>)
    ensures |Matched(macs, neutronPorts)| == MatchCount(macs, neutronPorts)
    decreases |macs|
  {
    if macs != [] {
      assert macs == [macs[0]] + macs[1..];
      MatchedAppend([macs[0]], macs[1..], neutronPorts);
      assert [macs[0]][..0] == [];
      MatchedCount(macs[1..], neutronPorts);
    }
  }

  /** The value `set_leftover_ports` gives the ports gauge of a node. */
  function PortsValue(node: Node, ironicPorts: string -> seq<string>, neutronPorts: string -> seq<string>): nat {
    if node.provisionState != Available then 0 else |Matched(ironicPorts(node.uuid), neutronPorts)|
  }

  /** The value `set_wait_callback_state` gives the call-back gauge of a node. */
  function CallbackValue(node: Node): (v: int)
    ensures v == 1 <==> node.provisionState == WaitCallBack
    ensures v == 0 || v == 1
  {
    if node.provisionState == WaitCallBack then 1 else 0
  }

  /** The gauges after the nodes are visited in order. */
  function PortsGaugeAfter(g: map<string, nat>, nodes: seq<Node>, ironicPorts: string -> seq<string>, neutronPorts: string -> seq<string>)
    : map<string, nat>
    decreases |nodes|
  {
    if nodes == [] then g
    else
      var last := nodes[|nodes| - 1];
      PortsGaugeAfter(g, nodes[..|nodes| - 1], ironicPorts, neutronPorts)[last.uuid := PortsValue(last, ironicPorts, neutronPorts)]
  }

  function CallbackGaugeAfter(g: map<string, int>, nodes: seq<Node>): map<string, int>
    decreases |nodes|
  {
    if nodes == [] then g
    else
      var last := nodes[|nodes| - 1];
      CallbackGaugeAfter(g, nodes[..|nodes| - 1])[last.uuid := CallbackValue(last)]
  }

  /** The index of the last node with the given uuid, if any. */
  function LastIndex(nodes: seq<Node>, uuid: string): (r: int)
    ensures -1 <= r < |nodes|
    ensures r >= 0 ==> nodes[r].uuid == uuid && forall j :: r < j < |nodes| ==> nodes[j].uuid != uuid
    ensures r == -1 ==> forall j :: 0 <= j < |nodes| ==> nodes[j].uuid != uuid
    decreases |nodes|
  {
    if nodes == [] then -1
    else if nodes[|nodes| - 1].uuid == uuid then |nodes| - 1
    else LastIndex(nodes[..|nodes| - 1], uuid)
  }

  /** Gauges of uuids not listed are untouched; a listed uuid holds the values
      of its last occurrence in the list. */
  lemma {:induction false} PortsGaugeLastWins(
    g: map<string, nat>, nodes: seq<Node>, ironicPorts: string -> seq<string>, neutronPorts: string -> seq<string>, uuid: string)
    ensures var after := PortsGaugeAfter(g, nodes, ironicPorts, neutronPorts);
      var k := LastIndex(nodes, uuid);
      (k == -1 ==> (uuid in after <==> uuid in g) && (uuid in g ==> after[uuid] == g[uuid])) &&
      (k >= 0 ==> uuid in after && after[uuid] == PortsValue(nodes[k], ironicPorts, neutronPorts))
    decreases |nodes|
  {
    if nodes != [] {
      PortsGaugeLastWins(g, nodes[..|nodes| - 1], ironicPorts, neutronPorts, uuid);
    }
  }

  lemma {:induction false} CallbackGaugeLastWins(g: map<string, int>, nodes: seq<Node>, uuid: string)
    ensures var after := CallbackGaugeAfter(g, nodes);
      var k := LastIndex(nodes, uuid);
      (k == -1 ==> (uuid in after <==> uuid in g) && (uuid in g ==> after[uuid] == g[uuid])) &&
      (k >= 0 ==> uuid in after && after[uuid] == CallbackValue(nodes[k]))
    decreases |nodes|
  {
    if nodes != [] {
      CallbackGaugeLastWins(g, nodes[..|nodes| - 1], uuid);
    }
  }

  class Ports {
    /** What the Ironic client answers: the nodes not in maintenance, and the
        MAC addresses of a node's ports. */
    const ironicNodes: seq<Node>
    const ironicPorts: string -> seq<string>
    /** What the Neutron client answers: the ids of the ports with a MAC address. */
    const neutronPorts: string -> seq<string>
    /** `PortsGauge` and `CallbackGauge`, by node uuid. */
    var portsGauge: map<string, nat>
    var callbackGauge: map<string, int>

    constructor (ironicNodes: seq<Node>, ironicPorts: string -> seq<string>, neutronPorts: string -> seq<string>,
                 portsGauge: map<string, nat>, callbackGauge: map<string, int>)
      ensures this.ironicNodes == ironicNodes && this.ironicPorts == ironicPorts && this.neutronPorts == neutronPorts
      ensures this.portsGauge == portsGauge && this.callbackGauge == callbackGauge
    {
      this.ironicNodes := ironicNodes;
      this.ironicPorts := ironicPorts;
      this.neutronPorts := neutronPorts;
      this.portsGauge := portsGauge;
      this.callbackGauge := callbackGauge;
    }

    /** `get_available_ironic_nodes_uuid`. */
    method AvailableNodes() returns (nodes: seq<Node>)
      ensures nodes == ironicNodes
    {
      nodes := ironicNodes;
    }

    /** The port scan of `set_leftover_ports`: for each port of the node, the
        Neutron ports with its MAC address; a single match and several
        matches both contribute every id, no match contributes nothing. */
    method LeftoverPortIds(uuid: string) returns (ids: seq<string>)
      ensures ids == Matched(ironicPorts(uuid), neutronPorts)
    {
      var allNodePorts := ironicPorts(uuid);
      ids := [];
      var i := 0;
      while i < |allNodePorts|
        invariant 0 <= i <= |allNodePorts|
        invariant ids == Matched(allNodePorts[..i], neutronPorts)
      {
        var matches := neutronPorts(allNodePorts[i]);
        if |matches| == 1 {
          ids := ids + [matches[0]];
          assert [matches[0]] == matches;
        } else if |matches| > 1 {
          ghost var before := ids;
          var j := 0;
          while j < |matches|
            invariant 0 <= j <= |matches|
            invariant ids == before + matches[..j]
          {
            ids := ids + [matches[j]];
            assert matches[..j + 1] == matches[..j] + [matches[j]];
            j := j + 1;
          }
          assert matches[..j] == matches;
        } else {
          assert matches == [];
        }
        assert allNodePorts[..i + 1][..i] == allNodePorts[..i];
        i := i + 1;
      }
      assert allNodePorts[..i] == allNodePorts;
    }

    /** `set_leftover_ports`: a node that is not available reads 0 without
        any port lookup; an available one reads the number of leftover
        Neutron ports. */
    method SetLeftoverPorts(node: Node)
      modifies this
      ensures portsGauge == old(portsGauge)[node.uuid := PortsValue(node, ironicPorts, neutronPorts)]
      ensures callbackGauge == old(callbackGauge)
    {
      if node.provisionState != Available {
        portsGauge := portsGauge[node.uuid := 0];
        return;
      }
      var leftover := LeftoverPortIds(node.uuid);
      portsGauge := portsGauge[node.uuid := |leftover|];
    }

    /** `set_wait_callback_state`. */
    method SetWaitCallbackState(node: Node)
      modifies this
      ensures callbackGauge == old(callbackGauge)[node.uuid := CallbackValue(node)]
      ensures portsGauge == old(portsGauge)
    {
      if node.provisionState == WaitCallBack {
        callbackGauge := callbackGauge[node.uuid := 1];
      } else {
        callbackGauge := callbackGauge[node.uuid := 0];
      }
    }

    /** `start_ironic_nodes_query`: both gauges of every listed node, in list
        order; an empty list changes nothing. */
    method StartIronicNodesQuery()
      modifies this
      ensures portsGauge == PortsGaugeAfter(old(portsGauge), ironicNodes, ironicPorts, neutronPorts)
      ensures callbackGauge == CallbackGaugeAfter(old(callbackGauge), ironicNodes)
    {
      var allNodes := AvailableNodes();
      if |allNodes| == 0 {
        return;
      }
      var i := 0;
      while i < |allNodes|
        invariant 0 <= i <= |allNodes|
        invariant portsGauge == PortsGaugeAfter(old(portsGauge), allNodes[..i], ironicPorts, neutronPorts)
        invariant callbackGauge == CallbackGaugeAfter(old(callbackGauge), allNodes[..i])
      {
        assert allNodes[..i + 1][..i] == allNodes[..i];
        SetLeftoverPorts(allNodes[i]);
        SetWaitCallbackState(allNodes[i]);
        i := i + 1;
      }
      assert allNodes[..i] == allNodes;
    }
  }
}
