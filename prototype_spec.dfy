/**
 * The earlier, self-contained prototype of the node: plain integer ballots,
 * messages as hashes, no value adoption and no escalation. As for the final
 * node, each transition returns the new state and the messages sent, in
 * order. Errors the prototype raises become `Err`, and a raising call
 * changes nothing.
 */
module PrototypeSpec {
  import opened Wrappers
  import opened Membership
  import Messages

  type Value = Messages.Value

  /** The hash `{ type:, sender:, sequence_number:, value: }` that `new_message` builds. */
  datatype Message = Message(kind: Messages.MsgKind, sender: nat, ballot: Option<int>, value: Option<Value>)

  /**
   * What `receive` raises: the explicit error for an unknown type, or the
   * `NoMethodError` of comparing a missing (`nil`) sequence number.
   */
  datatype Error = InvalidMessage(msg: Message) | NilComparison

  /** The instance variables of a prototype node. */
  datatype NodeState = NodeState(
    highest: int,          // @highest_sequence_number
    isProposer: bool,      // @is_proposer
    log: seq<Option<Value>>, // @log
    value: Option<Value>,  // @value
    proposed: int,         // @proposed_sequence_number
    promises: nat)         // @promises_received

  datatype Outcome = Outcome(state: NodeState, sends: seq<Send<Message>>)

  /** Only a proposer counts promises; ballots are never negative. */
  predicate Inv(s: NodeState) {
    && (!s.isProposer ==> s.promises == 0)
    && 0 <= s.highest
    && 0 <= s.proposed
  }

  predicate SentBy(sends: seq<Send<Message>>, id: nat) {
    forall k :: 0 <= k < |sends| ==> sends[k].msg.sender == id
  }

  /** The state `initialize` sets up. */
  function Init(): (s: NodeState)
    ensures Inv(s)
    ensures !s.isProposer && s.log == [] && s.value == None
    ensures s.highest == 0 && s.proposed == 0 && s.promises == 0
  {
    NodeState(0, false, [], None, 0, 0)
  }

  /** `write(value)`: propose `v` one round above the highest ballot seen, which itself stays. */
  function Write(s: NodeState, id: nat, others: seq<nat>, v: Option<Value>): (o: Outcome)
    ensures o.state.isProposer && o.state.value == v
    ensures o.state.proposed == s.highest + 1 && o.state.highest == s.highest
    ensures o.state.proposed > o.state.highest
    ensures o.state.promises == s.promises && o.state.log == s.log
    ensures |o.sends| == |others|
    ensures forall k :: 0 <= k < |others| ==>
      o.sends[k] == Send(others[k], Message(Messages.Prepare, id, Some(s.highest + 1), None))
    ensures Inv(s) ==> Inv(o.state)
  {
    var proposed := s.highest + 1;
    Outcome(
      s.(isProposer := true, value := v, proposed := proposed),
      Broadcast(others, Message(Messages.Prepare, id, Some(proposed), None)))
  }

  /** The `"prepare"` branch: a proposer ignores every prepare; an acceptor promises to a higher ballot. */
  function ReceivePrepare(s: NodeState, id: nat, m: Message): (r: Result<Outcome, Error>)
    ensures s.isProposer ==> r == Ok(Outcome(s, []))
    ensures !s.isProposer && m.ballot.None? ==> r == Err(NilComparison)
    ensures !s.isProposer && m.ballot.Some? && m.ballot.value <= s.highest ==> r == Ok(Outcome(s, []))
    ensures !s.isProposer && m.ballot.Some? && m.ballot.value > s.highest ==>
      && r.Ok? && r.value.state == s.(highest := m.ballot.value)
      && r.value.sends == [Send(m.sender, Message(Messages.Promise, id, None, None))]
  {
    if s.isProposer then Ok(Outcome(s, []))
    else if m.ballot.None? then Err(NilComparison)
    else if m.ballot.value <= s.highest then Ok(Outcome(s, []))
    else Ok(Outcome(s.(highest := m.ballot.value), [Send(m.sender, Message(Messages.Promise, id, None, None))]))
  }

  /**
   * The `"promise"` branch: any promise reaching a proposer is counted (there
   * is no ballot check); at quorum the proposer commits its value to the
   * others and logs the value carried by the promise itself.
   */
  function ReceivePromise(s: NodeState, id: nat, others: seq<nat>, size: nat, m: Message): (o: Outcome)
    ensures !s.isProposer ==> o == Outcome(s, [])
    ensures s.isProposer && s.promises + 1 < QuorumSize(size) ==>
      o == Outcome(s.(promises := s.promises + 1), [])
    ensures s.isProposer && s.promises + 1 >= QuorumSize(size) ==>
      && o.sends == Broadcast(others, Message(Messages.Commit, id, Some(s.proposed), s.value))
      && o.state.log == s.log + [m.value]
      && !o.state.isProposer && o.state.promises == 0
      && o.state.highest == s.highest && o.state.value == s.value && o.state.proposed == s.proposed
  {
    if !s.isProposer then Outcome(s, [])
    else
      var count := s.promises + 1;
      if count >= QuorumSize(size) then
        Outcome(
          s.(log := s.log + [m.value], isProposer := false, promises := 0),
          Broadcast(others, Message(Messages.Commit, id, Some(s.proposed), s.value)))
      else Outcome(s.(promises := count), [])
  }

  /** The `"commit"` branch: an acceptor logs a commit that is not older than its ballot. */
  function ReceiveCommit(s: NodeState, m: Message): (r: Result<Outcome, Error>)
    ensures s.isProposer ==> r == Ok(Outcome(s, []))
    ensures !s.isProposer && m.ballot.None? ==> r == Err(NilComparison)
    ensures !s.isProposer && m.ballot.Some? && m.ballot.value < s.highest ==> r == Ok(Outcome(s, []))
    ensures !s.isProposer && m.ballot.Some? && m.ballot.value >= s.highest ==>
      r == Ok(Outcome(s.(log := s.log + [m.value]), []))
  {
    if s.isProposer then Ok(Outcome(s, []))
    else if m.ballot.None? then Err(NilComparison)
    else if m.ballot.value < s.highest then Ok(Outcome(s, []))
    else Ok(Outcome(s.(log := s.log + [m.value]), []))
  }

  /** `receive(message)`: dispatch on the type; any other type raises. */
  function Receive(s: NodeState, id: nat, others: seq<nat>, size: nat, m: Message): (r: Result<Outcome, Error>)
    ensures m.kind.Other? ==> r == Err(InvalidMessage(m))
    ensures r.Err? <==>
      m.kind.Other? || (!s.isProposer && m.ballot.None? && (m.kind == Messages.Prepare || m.kind == Messages.Commit))
    // the proposal itself is never changed by a delivery
    ensures r.Ok? ==> r.value.state.value == s.value && r.value.state.proposed == s.proposed
    // the log is append-only and grows by at most one entry
    ensures r.Ok? ==> s.log <= r.value.state.log && |r.value.state.log| <= |s.log| + 1
    ensures r.Ok? ==> s.highest <= r.value.state.highest
    ensures r.Ok? ==> SentBy(r.value.sends, id)
    ensures r.Ok? && Inv(s) ==> Inv(r.value.state)
  {
    match m.kind
    case Prepare => ReceivePrepare(s, id, m)
    case Promise => Ok(ReceivePromise(s, id, others, size, m))
    case Commit => ReceiveCommit(s, m)
    case Other(_) => Err(InvalidMessage(m))
  }

  /** A fresh acceptor promises (with no ballot and no value) to a first prepare. */
  /**
   * `case message.type`: a message is handled by the branch its type string
   * names, and a message of any other type raises.
   */
  lemma ReceiveByType(s: NodeState, id: nat, others: seq<nat>, size: nat, t: string, sender: nat, b: Option<int>, v: Option<Value>)
    ensures var m := Message(Messages.KindOf(t), sender, b, v);
      && (t == "prepare" ==> Receive(s, id, others, size, m) == ReceivePrepare(s, id, m))
      && (t == "promise" ==> Receive(s, id, others, size, m) == Ok(ReceivePromise(s, id, others, size, m)))
      && (t == "commit" ==> Receive(s, id, others, size, m) == ReceiveCommit(s, m))
      && (t != "prepare" && t != "promise" && t != "commit" ==> Receive(s, id, others, size, m) == Err(InvalidMessage(m)))
  {
  }

  lemma FreshAcceptorPromises(x: nat, a: nat, aOthers: seq<nat>, size: nat)
    ensures Receive(Init(), a, aOthers, size, Message(Messages.Prepare, x, Some(1), None))
         == Ok(Outcome(Init().(highest := 1), [Send(x, Message(Messages.Promise, a, None, None))]))
  {
  }

  /** The writer counts both promises; the second completes its quorum and it commits to both acceptors. */
  lemma WriterCommitsOnSecondPromise(x: nat, y: nat, z: nat, v: Option<Value>)
    ensures var w := Write(Init(), x, [y, z], v);
      var x1 := Receive(w.state, x, [y, z], 3, Message(Messages.Promise, y, None, None));
      var x2 := Receive(x1.value.state, x, [y, z], 3, Message(Messages.Promise, z, None, None));
      var decided := Message(Messages.Commit, x, Some(1), v);
      && w.sends == [Send(y, Message(Messages.Prepare, x, Some(1), None)), Send(z, Message(Messages.Prepare, x, Some(1), None))]
      && x1 == Ok(Outcome(w.state.(promises := 1), []))
      && x2.Ok? && x2.value.sends == [Send(y, decided), Send(z, decided)]
      && x2.value.state.log == [None] && !x2.value.state.isProposer
  {
    assert QuorumSize(3) == 2;
    var w := Write(Init(), x, [y, z], v);
    var x1 := Receive(w.state, x, [y, z], 3, Message(Messages.Promise, y, None, None));
    assert x1 == Ok(Outcome(w.state.(promises := 1), []));
  }

  /** An acceptor that promised round 1 logs the value of that round's commit. */
  lemma AcceptorTakesCommit(x: nat, a: nat, aOthers: seq<nat>, v: Option<Value>)
    ensures var r := Receive(Init().(highest := 1), a, aOthers, 3, Message(Messages.Commit, x, Some(1), v));
      r.Ok? && r.value.state.log == [v]
  {
  }

  /**
   * Three fresh nodes `x`, `y`, `z` (registered in that order); `x` writes `v`
   * and the synchronous connection delivers depth first: the prepare to `y`,
   * `y`'s promise, the prepare to `z`, `z`'s promise, which completes the
   * quorum, then the commits to `y` and `z`. Both acceptors log `v`; the
   * writer logs the value of the promise that completed its quorum, which is
   * `nil`, because promises carry no value.
   */
  lemma SynchronousWrite(x: nat, y: nat, z: nat, v: Option<Value>)
    requires x != y && x != z && y != z
    ensures var members := [x, y, z];
      Except(members, x) == [y, z] && Except(members, y) == [x, z] && Except(members, z) == [x, y] &&
      var w := Write(Init(), x, Except(members, x), v);
      var py := Receive(Init(), y, Except(members, y), 3, w.sends[0].msg);
      var x1 := Receive(w.state, x, Except(members, x), 3, py.value.sends[0].msg);
      var pz := Receive(Init(), z, Except(members, z), 3, w.sends[1].msg);
      var x2 := Receive(x1.value.state, x, Except(members, x), 3, pz.value.sends[0].msg);
      var y2 := Receive(py.value.state, y, Except(members, y), 3, x2.value.sends[0].msg);
      var z2 := Receive(pz.value.state, z, Except(members, z), 3, x2.value.sends[1].msg);
      && py.Ok? && x1.Ok? && pz.Ok? && x2.Ok? && |x2.value.sends| == 2 && y2.Ok? && z2.Ok?
      && y2.value.state.log == [v] && z2.value.state.log == [v]
      && x2.value.state.log == [None] && !x2.value.state.isProposer
  {
    ExceptOfThree(x, y, z);
    WriterCommitsOnSecondPromise(x, y, z, v);
    FreshAcceptorPromises(x, y, [x, z], 3);
    FreshAcceptorPromises(x, z, [x, y], 3);
    AcceptorTakesCommit(x, y, [x, z], v);
    AcceptorTakesCommit(x, z, [x, y], v);
  }
}
