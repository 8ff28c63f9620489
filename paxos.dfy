/**
 * The nodes and the cluster directory (`PaxosNode`, `PaxosCluster`) as
 * objects whose fields change in place. Each node keeps a reference to the
 * cluster it joined and reads the cluster's current membership whenever it
 * needs `other_nodes` or `quorum_size`. The messages a node sends are
 * returned, in order, instead of being handed to a network.
 */
module Paxos {
  import opened Wrappers
  import opened Ballots
  import opened Messages
  import opened Membership
  import opened Consensus
  import NodeSpec

  /** Raised when a member is sampled from an empty cluster (`nil.write`). */
  datatype ClusterError = NoMembers

  class PaxosCluster {
    var nodes: seq<PaxosNode>

    constructor()
      ensures nodes == []
    {
      nodes := [];
    }

    /** The identities of the members, in registration order. */
    function Ids(): (r: seq<nat>)
      reads this
      ensures |r| == |nodes| && forall k :: 0 <= k < |nodes| ==> r[k] == nodes[k].id
    {
      seq(|nodes|, k requires 0 <= k < |nodes| reads this => nodes[k].id)
    }

    /**
     * Distinct members have distinct identities, as distinct Ruby objects
     * have distinct `object_id`s.
     */
    predicate DistinctIds()
      reads this
    {
      Distinct(Ids())
    }

    /**
     * `register(node)`: append, without checking for duplicates. A node is
     * either registered again or brings an identity no member has, as Ruby's
     * object identities are unique across all clusters.
     */
    method Register(n: PaxosNode)
      requires n in nodes || n.id !in Ids()
      modifies this
      ensures nodes == old(nodes) + [n]
      ensures old(DistinctIds()) && n !in old(nodes) ==> DistinctIds()
    {
      nodes := nodes + [n];
      assert Ids() == old(Ids()) + [n.id];
      if old(DistinctIds()) && n !in old(nodes) {
        DistinctAppend(old(Ids()), n.id);
      }
    }

    /** `write(value)` on the member at `choice`, which stands for the random `sample`. */
    method Write(choice: nat, v: Payload) returns (r: Result<seq<Send<Message>>, ClusterError>)
      requires |nodes| > 0 ==> choice < |nodes|
      modifies if choice < |nodes| then {nodes[choice]} else {}
      ensures r.Err? <==> nodes == []
      ensures r.Ok? ==>
        var n := nodes[choice];
        var o := NodeSpec.Write(old(n.State()), n.id, n.OtherNodes(), v);
        n.State() == o.state && r.value == o.sends
    {
      if nodes == [] {
        return Err(NoMembers);
      }
      var sends := nodes[choice].Write(v);
      r := Ok(sends);
    }

    /** `read` on the member at `choice`: that member's log, unchanged. */
    method Read(choice: nat) returns (r: Result<seq<Message>, ClusterError>)
      requires |nodes| > 0 ==> choice < |nodes|
      ensures r.Err? <==> nodes == []
      ensures r.Ok? ==> r.value == nodes[choice].log
    {
      if nodes == [] {
        return Err(NoMembers);
      }
      var log := nodes[choice].Read();
      r := Ok(log);
    }

    /** The value of each member's last log entry, in membership order. */
    function Votes(): (r: seq<Payload>)
      reads this, nodes
      ensures |r| == |nodes| && forall k :: 0 <= k < |nodes| ==> r[k] == LastValue(nodes[k].log)
    {
      seq(|nodes|, k requires 0 <= k < |nodes| reads this, nodes => LastValue(nodes[k].log))
    }

    /**
     * `get_consensus`: how many members report each value as their last
     * entry. Every value seen is a key, no other value is, absent values
     * count 0, and the counts add up to the number of members.
     */
    method GetConsensus() returns (tally: map<Payload, nat>)
      ensures forall v :: Count(tally, v) == multiset(Votes())[v]
      ensures forall v :: v in tally <==> v in Votes()
      ensures Total(tally) == |nodes|
    {
      var values := Votes();
      tally := map[];
      var i := 0;
      assert values[..0] == [];
      while i < |values|
        invariant 0 <= i <= |values|
        invariant Counts(tally, values[..i])
      {
        CountsPrefix(tally, values, i);
        tally := tally[values[i] := Count(tally, values[i]) + 1];
        i := i + 1;
      }
      assert values[..i] == values;
    }
  }

  class PaxosNode {
    /** Stands for the node's object identity. */
    const id: nat
    const cluster: PaxosCluster

    var isProposer: bool
    var log: seq<Message>
    var highest: SeqNum
    var value: Payload
    var promisesReceived: nat
    var highestFromAcceptors: SeqNum

    /** The node's instance variables as one value. */
    function State(): NodeSpec.NodeState
      reads this
    {
      NodeSpec.NodeState(isProposer, highest, value, promisesReceived, highestFromAcceptors, log)
    }

    /** `initialize(cluster, network)`: join the cluster as an acceptor with an empty log. */
    constructor(cluster: PaxosCluster, id: nat)
      requires id !in cluster.Ids()
      modifies cluster
      ensures this.cluster == cluster && this.id == id
      ensures State() == NodeSpec.Init(id)
      ensures cluster.nodes == old(cluster.nodes) + [this]
      ensures old(cluster.DistinctIds()) ==> cluster.DistinctIds()
    {
      this.cluster := cluster;
      this.id := id;
      isProposer := false;
      log := [];
      highest := SeqNum(0, id);
      value := Nil;
      promisesReceived := 0;
      highestFromAcceptors := SeqNum(0, id);
      new;
      cluster.Register(this);
    }

    /** `other_nodes`: the identities of the cluster's other members. */
    function OtherNodes(): seq<nat>
      reads cluster
    {
      Except(cluster.Ids(), id)
    }

    /** `quorum_size`, from the cluster's current membership. */
    function Quorum(): nat
      reads cluster
    {
      QuorumSize(|cluster.nodes|)
    }

    /** `other_nodes.each { |node| send_message(node, m) }`. */
    method SendToOthers(m: Message) returns (sends: seq<Send<Message>>)
      ensures sends == Broadcast(OtherNodes(), m)
    {
      var others := OtherNodes();
      sends := [];
      var k := 0;
      while k < |others|
        invariant 0 <= k <= |others|
        invariant |sends| == k
        invariant forall j :: 0 <= j < k ==> sends[j] == Send(others[j], m)
      {
        sends := sends + [Send(others[k], m)];
        k := k + 1;
      }
    }

    /** `read`: the log, with nothing changed. */
    method Read() returns (r: seq<Message>)
      ensures r == log
    {
      r := log;
    }

    /** `write(value)`. */
    method Write(v: Payload) returns (sends: seq<Send<Message>>)
      modifies this
      ensures var o := NodeSpec.Write(old(State()), id, OtherNodes(), v);
        State() == o.state && sends == o.sends
    {
      isProposer := true;
      value := v;
      highest := Plus(highest, 1);
      highestFromAcceptors := SeqNum(0, id);
      sends := SendToOthers(NewMessage(Prepare, Existing(highest), Nil, id));
    }

    /** `receive(message)`: dispatch on the type tag; unknown tags are ignored. */
    method Receive(m: Message) returns (sends: seq<Send<Message>>)
      modifies this
      ensures var o := NodeSpec.Receive(old(State()), id, OtherNodes(), |cluster.nodes|, m);
        State() == o.state && sends == o.sends
    {
      match m.kind {
        case Prepare => sends := ReceivePrepare(m);
        case Promise => sends := ReceivePromise(m);
        case Commit => sends := ReceiveCommit(m);
        case Other(_) => sends := [];
      }
    }

    /** The `"prepare"` branch. */
    method ReceivePrepare(m: Message) returns (sends: seq<Send<Message>>)
      modifies this
      ensures var o := NodeSpec.ReceivePrepare(old(State()), id, OtherNodes(), m);
        State() == o.state && sends == o.sends
    {
      sends := [];
      if LessEq(m.ballot, highest) {
        return;
      }
      if isProposer {
        highest := m.ballot;
        sends := Write(value);
        return;
      }
      highest := m.ballot;
      sends := [Send(m.sender, NewMessage(Promise, Existing(highest), LastEntry(log), id))];
    }

    /** The `"promise"` branch. */
    method ReceivePromise(m: Message) returns (sends: seq<Send<Message>>)
      modifies this
      ensures var o := NodeSpec.ReceivePromise(old(State()), id, OtherNodes(), |cluster.nodes|, m);
        State() == o.state && sends == o.sends
    {
      sends := [];
      if !isProposer {
        return;
      }
      if Less(m.ballot, highest) {
        return;
      }
      if m.value.Entry? && Less(highestFromAcceptors, m.value.entry.ballot) {
        highestFromAcceptors := m.value.entry.ballot;
        value := m.value.entry.value;
      }
      promisesReceived := promisesReceived + 1;
      if promisesReceived >= Quorum() {
        sends := SendToOthers(NewMessage(Commit, Existing(highest), value, id));
        log := log + [NewMessage(Commit, Existing(highest), value, id)];
        isProposer := false;
        promisesReceived := 0;
        // the log was just extended, so the empty-log case of the source cannot arise here
        highest := log[|log| - 1].ballot;
      }
    }

    /** The `"commit"` branch. */
    method ReceiveCommit(m: Message) returns (sends: seq<Send<Message>>)
      modifies this
      ensures var o := NodeSpec.ReceiveCommit(old(State()), m);
        State() == o.state && sends == o.sends
    {
      sends := [];
      if isProposer {
        return;
      }
      if Less(m.ballot, highest) {
        return;
      }
      highest := m.ballot;
      log := log + [m];
    }
  }

  /**
   * With distinct identities, a member's `other_nodes` is the whole
   * membership without that member's own position.
   */
  lemma OtherMembers(c: PaxosCluster, i: nat)
    requires c.DistinctIds() && i < |c.nodes|
    ensures Except(c.Ids(), c.nodes[i].id) == c.Ids()[..i] + c.Ids()[i + 1..]
  {
    ExceptDistinct(c.Ids(), i);
  }
}
