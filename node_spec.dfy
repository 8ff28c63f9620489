/**
 * The protocol state machine of a `PaxosNode` as pure transitions on the
 * node's state. Each transition takes the node's identity, the identities
 * of the other members (`other_nodes`) and, where a quorum is involved, the
 * current membership size, and returns the new state together with the
 * messages the node sends, in the order it sends them. The network is not
 * part of the model: delivering those messages is up to the caller.
 */
module NodeSpec {
  import opened Ballots
  import opened Messages
  import opened Membership

  /** The instance variables of a node. */
  datatype NodeState = NodeState(
    isProposer: bool,      // @is_proposer
    highest: SeqNum,       // @highest_sequence_number
    value: Payload,        // @value, the value being proposed
    promises: nat,         // @promises_received
    fromAcceptors: SeqNum, // @highest_sequence_number_from_acceptors
    log: seq<Message>)     // @log, the committed history

  datatype Outcome = Outcome(state: NodeState, sends: seq<Send<Message>>)

  /**
   * What holds of every state a node reaches: only a proposer counts
   * promises, rounds are never negative, and the log holds commits only.
   */
  predicate Inv(s: NodeState) {
    && (!s.isProposer ==> s.promises == 0)
    && 0 <= s.highest.num
    && forall k :: 0 <= k < |s.log| ==> s.log[k].kind == Commit
  }

  /** Every message sent carries the sender's identity, in its ballot too. */
  predicate StampedBy(sends: seq<Send<Message>>, id: nat) {
    forall k :: 0 <= k < |sends| ==> sends[k].msg.sender == id && sends[k].msg.ballot.sender == id
  }

  /** The state `initialize` sets up. */
  function Init(id: nat): (s: NodeState)
    ensures Inv(s)
    ensures !s.isProposer && s.log == [] && s.value == Nil && s.promises == 0
    ensures s.highest == SeqNum(0, id) && s.fromAcceptors == SeqNum(0, id)
  {
    NodeState(false, SeqNum(0, id), Nil, 0, SeqNum(0, id), [])
  }

  /** `write(value)`: become proposer for `v` under the next round. */
  function Write(s: NodeState, id: nat, others: seq<nat>, v: Payload): (o: Outcome)
    ensures o.state.isProposer && o.state.value == v
    ensures o.state.highest.num == s.highest.num + 1 && o.state.highest.sender == s.highest.sender
    ensures Less(s.highest, o.state.highest)
    ensures o.state.fromAcceptors == SeqNum(0, id)
    ensures o.state.promises == s.promises && o.state.log == s.log
    ensures |o.sends| == |others|
    ensures forall k :: 0 <= k < |others| ==>
      o.sends[k] == Send(others[k], Message(Prepare, SeqNum(o.state.highest.num, id), Nil, id))
    ensures StampedBy(o.sends, id)
    ensures Inv(s) ==> Inv(o.state)
  {
    var next := Plus(s.highest, 1);
    Outcome(
      s.(isProposer := true, value := v, highest := next, fromAcceptors := SeqNum(0, id)),
      Broadcast(others, NewMessage(Prepare, Existing(next), Nil, id)))
  }

  /** The `"prepare"` branch of `receive`. */
  function ReceivePrepare(s: NodeState, id: nat, others: seq<nat>, m: Message): (o: Outcome)
    // a stale prepare changes nothing and is not answered
    ensures LessEq(m.ballot, s.highest) ==> o == Outcome(s, [])
    // a proposer that sees a higher ballot escalates past it
    ensures Less(s.highest, m.ballot) && s.isProposer ==>
      && o.state.highest == SeqNum(m.ballot.num + 1, m.ballot.sender)
      && Less(m.ballot, o.state.highest)
      && o.state.isProposer && o.state.value == s.value
      && o.state.promises == s.promises && o.state.log == s.log
      && o.state.fromAcceptors == SeqNum(0, id)
      && |o.sends| == |others|
      && forall k :: 0 <= k < |others| ==>
           o.sends[k] == Send(others[k], Message(Prepare, SeqNum(m.ballot.num + 1, id), Nil, id))
    // an acceptor promises to respect the higher ballot, answering with its last entry
    ensures Less(s.highest, m.ballot) && !s.isProposer ==>
      && o.state == s.(highest := m.ballot)
      && o.sends == [Send(m.sender, Message(Promise, SeqNum(m.ballot.num, id), LastEntry(s.log), id))]
  {
    if LessEq(m.ballot, s.highest) then Outcome(s, [])
    else if s.isProposer then Write(s.(highest := m.ballot), id, others, s.value)
    else
      var promised := s.(highest := m.ballot);
      Outcome(promised, [Send(m.sender, NewMessage(Promise, Existing(promised.highest), LastEntry(s.log), id))])
  }

  /** A promise reports an accepted value from a later round than any reported so far. */
  predicate Adopts(s: NodeState, m: Message) {
    m.value.Entry? && Less(s.fromAcceptors, m.value.entry.ballot)
  }

  /** The `"promise"` branch of `receive`; `size` is the current membership size. */
  function ReceivePromise(s: NodeState, id: nat, others: seq<nat>, size: nat, m: Message): (o: Outcome)
    // promises reaching an acceptor, or older than the node's ballot, are ignored
    ensures !s.isProposer || Less(m.ballot, s.highest) ==> o == Outcome(s, [])
    // value adoption: the tracker only moves up, and the value follows it
    ensures s.isProposer && LessEq(s.highest, m.ballot) ==>
      && (Adopts(s, m) ==> o.state.value == m.value.entry.value && o.state.fromAcceptors == m.value.entry.ballot)
      && (!Adopts(s, m) ==> o.state.value == s.value && o.state.fromAcceptors == s.fromAcceptors)
      && LessEq(s.fromAcceptors, o.state.fromAcceptors)
    // below quorum: one more promise counted, nothing sent
    ensures s.isProposer && LessEq(s.highest, m.ballot) && s.promises + 1 < QuorumSize(size) ==>
      && o.state.promises == s.promises + 1 && o.sends == []
      && o.state.isProposer && o.state.highest == s.highest && o.state.log == s.log
    // at quorum: commit to everyone else and to the own log, then step down
    ensures s.isProposer && LessEq(s.highest, m.ballot) && s.promises + 1 >= QuorumSize(size) ==>
      var commit := Message(Commit, SeqNum(s.highest.num, id), o.state.value, id);
      && o.sends == Broadcast(others, commit)
      && o.state.log == s.log + [commit]
      && !o.state.isProposer && o.state.promises == 0
      && o.state.highest == SeqNum(s.highest.num, id)
  {
    if !s.isProposer || Less(m.ballot, s.highest) then Outcome(s, [])
    else
      var s1 := if Adopts(s, m)
        then s.(fromAcceptors := m.value.entry.ballot, value := m.value.entry.value)
        else s;
      var count := s1.promises + 1;
      if count >= QuorumSize(size) then
        var commit := NewMessage(Commit, Existing(s1.highest), s1.value, id);
        var log := s1.log + [commit];
        var highest := if log == [] then SeqNum(0, id) else log[|log| - 1].ballot;
        Outcome(s1.(isProposer := false, promises := 0, log := log, highest := highest), Broadcast(others, commit))
      else
        Outcome(s1.(promises := count), [])
  }

  /** The `"commit"` branch of `receive`. */
  function ReceiveCommit(s: NodeState, m: Message): (o: Outcome)
    ensures o.sends == []
    // a proposer, or a node that has seen a later ballot, drops the commit
    ensures s.isProposer || Less(m.ballot, s.highest) ==> o.state == s
    // otherwise the commit is appended and its ballot becomes the node's
    ensures !s.isProposer && LessEq(s.highest, m.ballot) ==>
      o.state == s.(highest := m.ballot, log := s.log + [m])
  {
    if s.isProposer || Less(m.ballot, s.highest) then Outcome(s, [])
    else Outcome(s.(highest := m.ballot, log := s.log + [m]), [])
  }

  /** `receive(message)`: dispatch on the type tag; unknown tags are ignored. */
  function Receive(s: NodeState, id: nat, others: seq<nat>, size: nat, m: Message): (o: Outcome)
    ensures m.kind.Other? ==> o == Outcome(s, [])
    // the log is append-only and grows by at most one entry
    ensures s.log <= o.state.log && |o.state.log| <= |s.log| + 1
    // rounds never go backwards
    ensures s.highest.num <= o.state.highest.num
    ensures StampedBy(o.sends, id)
    // a promise is sent only in answer to a prepare, and only to its sender
    ensures forall k :: 0 <= k < |o.sends| && o.sends[k].msg.kind == Promise ==>
      m.kind == Prepare && o.sends[k].target == m.sender && |o.sends| == 1
    // everything else goes to the other members
    ensures forall k :: 0 <= k < |o.sends| && o.sends[k].msg.kind != Promise ==> o.sends[k].target in others
    ensures Inv(s) ==> Inv(o.state)
  {
    match m.kind
    case Prepare => ReceivePrepare(s, id, others, m)
    case Promise => ReceivePromise(s, id, others, size, m)
    case Commit => ReceiveCommit(s, m)
    case Other(_) => Outcome(s, [])
  }

  /**
   * `case message.type`: a message is handled by the branch its type string
   * names, and a message of any other type is ignored.
   */
  lemma ReceiveByType(s: NodeState, id: nat, others: seq<nat>, size: nat, t: string, b: SeqNum, v: Payload, sender: nat)
    ensures var m := Message(KindOf(t), b, v, sender);
      && (t == "prepare" ==> Receive(s, id, others, size, m) == ReceivePrepare(s, id, others, m))
      && (t == "promise" ==> Receive(s, id, others, size, m) == ReceivePromise(s, id, others, size, m))
      && (t == "commit" ==> Receive(s, id, others, size, m) == ReceiveCommit(s, m))
      && (t != "prepare" && t != "promise" && t != "commit" ==> Receive(s, id, others, size, m) == Outcome(s, []))
  {
  }
}
