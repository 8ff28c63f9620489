/**
 * The prototype's objects: a node whose fields change in place, the
 * cluster directory, the synchronous connection and `build_cluster`.
 * As for the final node, the messages a node sends are returned in order;
 * the connection hands one message to its target and returns what the
 * target sends in reply.
 */
module Prototype {
  import opened Wrappers
  import opened Membership
  import Messages
  import Spec = PrototypeSpec

  /** Raised when a member is sampled from an empty cluster (`nil.write`). */
  datatype ClusterError = NoMembers

  /** `Connection#send_message(target, message)`: a direct call of `target.receive(message)`. */
  class Connection {
    constructor()
    {
    }

    method SendMessage(target: PaxosNode, m: Spec.Message) returns (r: Result<seq<Send<Spec.Message>>, Spec.Error>)
      modifies target
      ensures var o := Spec.Receive(old(target.State()), target.id, target.OtherNodes(), |target.cluster.nodes|, m);
        && (o.Ok? ==> r == Ok(o.value.sends) && target.State() == o.value.state)
        && (o.Err? ==> r == Err(o.error) && target.State() == old(target.State()))
    {
      r := target.Receive(m);
    }
  }

  class PaxosCluster {
    var nodes: seq<PaxosNode>

    constructor()
      ensures nodes == []
    {
      nodes := [];
    }

    /** The identities of the members, in registration order. */
    function Ids(): (r: seq<nat>)
      reads this
      ensures |r| == |nodes| && forall k :: 0 <= k < |nodes| ==> r[k] == nodes[k].id
    {
      seq(|nodes|, k requires 0 <= k < |nodes| reads this => nodes[k].id)
    }

    /**
     * Distinct members have distinct identities, as distinct Ruby objects
     * have distinct `object_id`s.
     */
    predicate DistinctIds()
      reads this
    {
      Distinct(Ids())
    }

    /**
     * `register(node)`: append, without checking for duplicates. A node is
     * either registered again or brings an identity no member has, as Ruby's
     * object identities are unique across all clusters.
     */
    method Register(n: PaxosNode)
      requires n in nodes || n.id !in Ids()
      modifies this
      ensures nodes == old(nodes) + [n]
      ensures old(DistinctIds()) && n !in old(nodes) ==> DistinctIds()
    {
      nodes := nodes + [n];
      assert Ids() == old(Ids()) + [n.id];
      if old(DistinctIds()) && n !in old(nodes) {
        DistinctAppend(old(Ids()), n.id);
      }
    }

    /** `write(message)` on the member at `choice`, which stands for the random `sample`. */
    method Write(choice: nat, v: Option<Spec.Value>) returns (r: Result<seq<Send<Spec.Message>>, ClusterError>)
      requires |nodes| > 0 ==> choice < |nodes|
      modifies if choice < |nodes| then {nodes[choice]} else {}
      ensures r.Err? <==> nodes == []
      ensures r.Ok? ==>
        var n := nodes[choice];
        var o := Spec.Write(old(n.State()), n.id, n.OtherNodes(), v);
        n.State() == o.state && r.value == o.sends
    {
      if nodes == [] {
        return Err(NoMembers);
      }
      var sends := nodes[choice].Write(v);
      r := Ok(sends);
    }

    /** `read` on the member at `choice`: that member's log, unchanged. */
    method Read(choice: nat) returns (r: Result<seq<Option<Spec.Value>>, ClusterError>)
      requires |nodes| > 0 ==> choice < |nodes|
      ensures r.Err? <==> nodes == []
      ensures r.Ok? ==> r.value == nodes[choice].log
    {
      if nodes == [] {
        return Err(NoMembers);
      }
      var log := nodes[choice].Read();
      r := Ok(log);
    }
  }

  class PaxosNode {
    /** Stands for the node's object identity. */
    const id: nat
    const cluster: PaxosCluster
    const connection: Connection

    var highestSequenceNumber: int
    var isProposer: bool
    var log: seq<Option<Spec.Value>>
    var value: Option<Spec.Value>
    var proposedSequenceNumber: int
    var promisesReceived: nat

    /** The node's instance variables as one value. */
    function State(): Spec.NodeState
      reads this
    {
      Spec.NodeState(highestSequenceNumber, isProposer, log, value, proposedSequenceNumber, promisesReceived)
    }

    /** `initialize(cluster)`: join the cluster as an acceptor with an empty log. */
    constructor(cluster: PaxosCluster, id: nat)
      requires id !in cluster.Ids()
      modifies cluster
      ensures this.cluster == cluster && this.id == id && fresh(connection)
      ensures State() == Spec.Init()
      ensures cluster.nodes == old(cluster.nodes) + [this]
      ensures old(cluster.DistinctIds()) ==> cluster.DistinctIds()
    {
      this.connection := new Connection();
      this.highestSequenceNumber := 0;
      this.cluster := cluster;
      this.id := id;
      isProposer := false;
      log := [];
      value := None;
      proposedSequenceNumber := 0;
      promisesReceived := 0;
      new;
      cluster.Register(this);
    }

    /** `other_nodes`: the identities of the cluster's other members. */
    function OtherNodes(): seq<nat>
      reads cluster
    {
      Except(cluster.Ids(), id)
    }

    /** `quorum_size`, from the cluster's current membership. */
    function Quorum(): nat
      reads cluster
    {
      QuorumSize(|cluster.nodes|)
    }

    /** `other_nodes.each { |node| send_message(node, m) }`. */
    method SendToOthers(m: Spec.Message) returns (sends: seq<Send<Spec.Message>>)
      ensures sends == Broadcast(OtherNodes(), m)
    {
      var others := OtherNodes();
      sends := [];
      var k := 0;
      while k < |others|
        invariant 0 <= k <= |others|
        invariant |sends| == k
        invariant forall j :: 0 <= j < k ==> sends[j] == Send(others[j], m)
      {
        sends := sends + [Send(others[k], m)];
        k := k + 1;
      }
    }

    /** `read`: the log, with nothing changed. */
    method Read() returns (r: seq<Option<Spec.Value>>)
      ensures r == log
    {
      r := log;
    }

    /** `write(value)`. */
    method Write(v: Option<Spec.Value>) returns (sends: seq<Send<Spec.Message>>)
      modifies this
      ensures var o := Spec.Write(old(State()), id, OtherNodes(), v);
        State() == o.state && sends == o.sends
    {
      isProposer := true;
      value := v;
      proposedSequenceNumber := highestSequenceNumber + 1;
      sends := SendToOthers(Spec.Message(Messages.Prepare, id, Some(proposedSequenceNumber), None));
    }

    /** `receive(message)`; a raised error leaves the node unchanged. */
    method Receive(m: Spec.Message) returns (r: Result<seq<Send<Spec.Message>>, Spec.Error>)
      modifies this
      ensures var o := Spec.Receive(old(State()), id, OtherNodes(), |cluster.nodes|, m);
        && (o.Ok? ==> r == Ok(o.value.sends) && State() == o.value.state)
        && (o.Err? ==> r == Err(o.error) && State() == old(State()))
    {
      match m.kind {
        case Prepare =>
          if isProposer {
            return Ok([]);
          }
          if m.ballot.None? {
            return Err(Spec.NilComparison);
          }
          if m.ballot.value <= highestSequenceNumber {
            return Ok([]);
          }
          highestSequenceNumber := m.ballot.value;
          r := Ok([Send(m.sender, Spec.Message(Messages.Promise, id, None, None))]);
        case Promise =>
          if !isProposer {
            return Ok([]);
          }
          promisesReceived := promisesReceived + 1;
          var sends := [];
          if promisesReceived >= Quorum() {
            sends := SendToOthers(Spec.Message(Messages.Commit, id, Some(proposedSequenceNumber), value));
            log := log + [m.value];
            isProposer := false;
            promisesReceived := 0;
          }
          r := Ok(sends);
        case Commit =>
          if isProposer {
            return Ok([]);
          }
          if m.ballot.None? {
            return Err(Spec.NilComparison);
          }
          if m.ballot.value < highestSequenceNumber {
            return Ok([]);
          }
          log := log + [m.value];
          r := Ok([]);
        case Other(_) =>
          r := Err(Spec.InvalidMessage(m));
      }
    }
  }

  /** The membership arithmetic of a cluster whose members are 0, 1 and 2. */
  lemma ThreeMembers()
    ensures QuorumSize(3) == 2
    ensures forall k :: 0 <= k < 3 ==> |Except([0, 1, 2], k)| == 2
  {
    ExceptOfThree(0, 1, 2);
  }

  /** `build_cluster`: a fresh cluster of three fresh nodes, whose quorum is two. */
  method BuildCluster() returns (c: PaxosCluster)
    ensures fresh(c) && |c.nodes| == 3
    ensures forall k :: 0 <= k < 3 ==> fresh(c.nodes[k]) && c.nodes[k].cluster == c && c.nodes[k].id == k
    ensures forall k :: 0 <= k < 3 ==> c.nodes[k].State() == Spec.Init()
    ensures forall j, k :: 0 <= j < k < 3 ==> c.nodes[j] != c.nodes[k]
    ensures c.DistinctIds()
    ensures forall k :: 0 <= k < 3 ==> c.nodes[k].Quorum() == 2 && |c.nodes[k].OtherNodes()| == 2
  {
    c := new PaxosCluster();
    var k := 0;
    while k < 3
      invariant 0 <= k <= 3 && |c.nodes| == k
      invariant forall j :: 0 <= j < k ==> fresh(c.nodes[j]) && c.nodes[j].cluster == c && c.nodes[j].id == j
      invariant forall j :: 0 <= j < k ==> c.nodes[j].State() == Spec.Init()
      invariant c.DistinctIds()
    {
      var n := new PaxosNode(c, k);
      k := k + 1;
    }
    assert c.Ids() == [0, 1, 2] by {
      assert c.Ids()[0] == 0 && c.Ids()[1] == 1 && c.Ids()[2] == 2;
    }
    ThreeMembers();
  }
}
