/**
 * Properties of a node across several transitions: what holds after any run
 * of writes and deliveries, how a proposer treats the promise that answers
 * its own prepare, and how a three-node cluster behaves when the messages
 * of one write are delivered in the order they were sent.
 */
module NodeRuns {
  import opened Ballots
  import opened Messages
  import opened Membership
  import opened NodeSpec

  /** What can happen to a node: a client write, or the delivery of a message. */
  datatype Event = ClientWrite(v: Payload) | Deliver(msg: Message)

  function Step(s: NodeState, id: nat, others: seq<nat>, size: nat, e: Event): Outcome {
    match e
    case ClientWrite(v) => Write(s, id, others, v)
    case Deliver(m) => Receive(s, id, others, size, m)
  }

  /** The events applied in order; the sends of all steps, in order. */
  function Run(s: NodeState, id: nat, others: seq<nat>, size: nat, events: seq<Event>): Outcome
    decreases |events|
  {
    if events == [] then Outcome(s, [])
    else
      var first := Step(s, id, others, size, events[0]);
      var rest := Run(first.state, id, others, size, events[1..]);
      Outcome(rest.state, first.sends + rest.sends)
  }

  /** One write or delivery keeps the invariant, extends the log by at most one entry and keeps rounds. */
  lemma StepPreserves(s: NodeState, id: nat, others: seq<nat>, size: nat, e: Event)
    requires Inv(s)
    ensures var o := Step(s, id, others, size, e);
      && Inv(o.state)
      && s.log <= o.state.log
      && |o.state.log| <= |s.log| + 1
      && s.highest.num <= o.state.highest.num
      && StampedBy(o.sends, id)
  {
  }

  /**
   * Along any run the node invariant holds, the log only grows, rounds
   * never go backwards and everything sent carries the node's identity.
   */
  lemma {:induction false} RunPreserves(s: NodeState, id: nat, others: seq<nat>, size: nat, events: seq<Event>)
    requires Inv(s)
    ensures var o := Run(s, id, others, size, events);
      && Inv(o.state)
      && s.log <= o.state.log
      && |o.state.log| <= |s.log| + |events|
      && s.highest.num <= o.state.highest.num
      && StampedBy(o.sends, id)
    decreases |events|
  {
    if events != [] {
      var first := Step(s, id, others, size, events[0]);
      StepPreserves(s, id, others, size, events[0]);
      RunPreserves(first.state, id, others, size, events[1..]);
      var rest := Run(first.state, id, others, size, events[1..]);
      PrefixTransitive(s.log, first.state.log, rest.state.log);
      StampedConcat(first.sends, rest.sends, id);
    }
  }

  /** A prefix of a prefix is a prefix. */
  lemma PrefixTransitive(a: seq<Message>, b: seq<Message>, c: seq<Message>)
    requires a <= b && b <= c
    ensures a <= c
  {
    assert a == b[..|a|] && b == c[..|b|];
  }

  /** Sends stamped by one node, joined, are still stamped by it. */
  lemma StampedConcat(a: seq<Send<Message>>, b: seq<Send<Message>>, id: nat)
    requires StampedBy(a, id) && StampedBy(b, id)
    ensures StampedBy(a + b, id)
  {
    assert forall k :: 0 <= k < |a + b| ==> (a + b)[k] == if k < |a| then a[k] else b[k - |a|];
  }

  /** A run that starts from a fresh node keeps the node invariant. */
  lemma FreshRun(id: nat, others: seq<nat>, size: nat, events: seq<Event>)
    ensures Inv(Run(Init(id), id, others, size, events).state)
  {
    RunPreserves(Init(id), id, others, size, events);
  }

  /**
   * The promise an acceptor sends in answer to a proposer's prepare is
   * re-stamped with the acceptor's identity, while the proposer compares it
   * against a ballot that keeps its earlier stamp. With equal rounds the
   * proposer therefore ignores the promise exactly when the acceptor's
   * identity is below that stamp.
   */
  lemma OwnPromiseIgnoredIff(p: NodeState, pid: nat, others: seq<nat>, v: Payload, size: nat,
                             k: nat, a: NodeState, aOthers: seq<nat>)
    requires k < |others|
    requires !a.isProposer && Less(a.highest, SeqNum(p.highest.num + 1, pid))
    ensures var w := Write(p, pid, others, v);
      var reply := Receive(a, others[k], aOthers, size, w.sends[k].msg);
      && |reply.sends| == 1 && reply.sends[0].target == pid
      && reply.sends[0].msg.kind == Promise
      && (Receive(w.state, pid, others, size, reply.sends[0].msg) == Outcome(w.state, [])
          <==> others[k] < p.highest.sender)
  {
    var w := Write(p, pid, others, v);
    var reply := Receive(a, others[k], aOthers, size, w.sends[k].msg);
    var promise := reply.sends[0].msg;
    assert promise.ballot == SeqNum(w.state.highest.num, others[k]);
    var after := Receive(w.state, pid, others, size, promise);
    if !Less(promise.ballot, w.state.highest) {
      if w.state.promises + 1 >= QuorumSize(size) {
        assert !after.state.isProposer;
      } else {
        assert after.state.promises != w.state.promises;
      }
    }
  }

  /** For a node that has not seen any other ballot: only acceptors with larger identities count. */
  lemma FreshProposerCountsLargerAcceptors(pid: nat, others: seq<nat>, v: Payload, size: nat, k: nat, aOthers: seq<nat>)
    requires k < |others|
    ensures var w := Write(Init(pid), pid, others, v);
      var reply := Receive(Init(others[k]), others[k], aOthers, size, w.sends[k].msg);
      Receive(w.state, pid, others, size, reply.sends[0].msg) == Outcome(w.state, []) <==> others[k] < pid
  {
    OwnPromiseIgnoredIff(Init(pid), pid, others, v, size, k, Init(others[k]), aOthers);
  }

  /** An acceptor that has seen no ballot yet promises round 1 to a node's first prepare. */
  lemma FreshAcceptorPromises(x: nat, a: nat, aOthers: seq<nat>, size: nat)
    ensures Receive(Init(a), a, aOthers, size, Message(Prepare, SeqNum(1, x), Nil, x))
         == Outcome(Init(a).(highest := SeqNum(1, x)), [Send(x, Message(Promise, SeqNum(1, a), Nil, a))])
  {
    assert Less(SeqNum(0, a), SeqNum(1, x));
  }

  /** The two promises reach the smallest-identity writer: the second one completes the quorum. */
  lemma WriterReachesQuorum(x: nat, y: nat, z: nat, v: Payload)
    requires x < y && x < z
    ensures var w := Write(Init(x), x, [y, z], v);
      var x1 := Receive(w.state, x, [y, z], 3, Message(Promise, SeqNum(1, y), Nil, y));
      var x2 := Receive(x1.state, x, [y, z], 3, Message(Promise, SeqNum(1, z), Nil, z));
      var decided := Message(Commit, SeqNum(1, x), v, x);
      && w.sends == [Send(y, Message(Prepare, SeqNum(1, x), Nil, x)), Send(z, Message(Prepare, SeqNum(1, x), Nil, x))]
      && x1 == Outcome(w.state.(promises := 1), [])
      && x2.sends == [Send(y, decided), Send(z, decided)]
      && x2.state.log == [decided] && !x2.state.isProposer
  {
    var w := Write(Init(x), x, [y, z], v);
    assert w.state == NodeState(true, SeqNum(1, x), v, 0, SeqNum(0, x), []);
    assert QuorumSize(3) == 2;
    var x1 := Receive(w.state, x, [y, z], 3, Message(Promise, SeqNum(1, y), Nil, y));
    assert x1.state == w.state.(promises := 1);
  }

  /** An acceptor that promised round 1 to `x` accepts `x`'s commit of that round. */
  lemma AcceptorTakesCommit(x: nat, a: nat, v: Payload)
    ensures var decided := Message(Commit, SeqNum(1, x), v, x);
      ReceiveCommit(Init(a).(highest := SeqNum(1, x)), decided).state.log == [decided]
  {
  }

  /**
   * Three fresh nodes `x`, `y`, `z` (registered in that order); `x` writes `v`
   * and every message is delivered once, first in, first out. If `x` has the
   * smallest identity, every log ends up holding the same single commit of `v`.
   */
  lemma SmallestWriterCommits(x: nat, y: nat, z: nat, v: Payload)
    requires x < y && x < z && y != z
    ensures var members := [x, y, z];
      Except(members, x) == [y, z] && Except(members, y) == [x, z] && Except(members, z) == [x, y] &&
      var w := Write(Init(x), x, Except(members, x), v);
      var py := Receive(Init(y), y, Except(members, y), 3, w.sends[0].msg);
      var pz := Receive(Init(z), z, Except(members, z), 3, w.sends[1].msg);
      var x1 := Receive(w.state, x, Except(members, x), 3, py.sends[0].msg);
      var x2 := Receive(x1.state, x, Except(members, x), 3, pz.sends[0].msg);
      var y2 := Receive(py.state, y, Except(members, y), 3, x2.sends[0].msg);
      var z2 := Receive(pz.state, z, Except(members, z), 3, x2.sends[1].msg);
      var decided := Message(Commit, SeqNum(1, x), v, x);
      && |x2.sends| == 2
      && x2.state.log == [decided] && y2.state.log == [decided] && z2.state.log == [decided]
  {
    ExceptOfThree(x, y, z);
    WriterReachesQuorum(x, y, z, v);
    FreshAcceptorPromises(x, y, [x, z], 3);
    FreshAcceptorPromises(x, z, [x, y], 3);
    AcceptorTakesCommit(x, y, v);
    AcceptorTakesCommit(x, z, v);
  }

  /**
   * The same schedule when the writer `z` has the largest identity: both
   * promises are ignored, so nothing is committed and `z` stays a proposer.
   */
  lemma LargestWriterStalls(x: nat, y: nat, z: nat, v: Payload)
    requires x < z && y < z && x != y
    ensures var members := [x, y, z];
      Except(members, x) == [y, z] && Except(members, y) == [x, z] && Except(members, z) == [x, y] &&
      var w := Write(Init(z), z, Except(members, z), v);
      var px := Receive(Init(x), x, Except(members, x), 3, w.sends[0].msg);
      var py := Receive(Init(y), y, Except(members, y), 3, w.sends[1].msg);
      var z1 := Receive(w.state, z, Except(members, z), 3, px.sends[0].msg);
      var z2 := Receive(z1.state, z, Except(members, z), 3, py.sends[0].msg);
      && z2 == Outcome(w.state, [])
      && z2.state.isProposer && z2.state.promises == 0 && z2.state.log == []
      && px.state.log == [] && py.state.log == []
  {
    ExceptOfThree(x, y, z);
    var w := Write(Init(z), z, [x, y], v);
    var prepare := Message(Prepare, SeqNum(1, z), Nil, z);
    assert w.sends == [Send(x, prepare), Send(y, prepare)];
    var px := Receive(Init(x), x, [y, z], 3, prepare);
    assert px.sends == [Send(z, Message(Promise, SeqNum(1, x), Nil, x))];
    var py := Receive(Init(y), y, [x, z], 3, prepare);
    assert py.sends == [Send(z, Message(Promise, SeqNum(1, y), Nil, y))];
  }

  /**
   * The same schedule when the writer `y` has the middle identity: the
   * promise of the smaller `x` is ignored and that of the larger `z` is
   * counted, one short of the quorum of two, so nothing is committed and `y`
   * stays a proposer.
   */
  lemma MiddleWriterStalls(x: nat, y: nat, z: nat, v: Payload)
    requires x < y < z
    ensures var members := [x, y, z];
      Except(members, x) == [y, z] && Except(members, y) == [x, z] && Except(members, z) == [x, y] &&
      var w := Write(Init(y), y, Except(members, y), v);
      var px := Receive(Init(x), x, Except(members, x), 3, w.sends[0].msg);
      var pz := Receive(Init(z), z, Except(members, z), 3, w.sends[1].msg);
      var y1 := Receive(w.state, y, Except(members, y), 3, px.sends[0].msg);
      var y2 := Receive(y1.state, y, Except(members, y), 3, pz.sends[0].msg);
      && y1 == Outcome(w.state, [])
      && y2 == Outcome(w.state.(promises := 1), [])
      && y2.state.isProposer && y2.state.log == []
      && px.state.log == [] && pz.state.log == []
  {
    ExceptOfThree(x, y, z);
    assert QuorumSize(3) == 2;
    var w := Write(Init(y), y, [x, z], v);
    var prepare := Message(Prepare, SeqNum(1, y), Nil, y);
    assert w.sends == [Send(x, prepare), Send(z, prepare)];
    FreshAcceptorPromises(y, x, [y, z], 3);
    FreshAcceptorPromises(y, z, [x, y], 3);
    var fromX := Message(Promise, SeqNum(1, x), Nil, x);
    var fromZ := Message(Promise, SeqNum(1, z), Nil, z);
    assert Less(fromX.ballot, w.state.highest);
    var y1 := Receive(w.state, y, [x, z], 3, fromX);
    assert y1 == Outcome(w.state, []);
    assert LessEq(w.state.highest, fromZ.ballot) && !Adopts(w.state, fromZ);
  }
}
