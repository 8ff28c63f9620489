# toy-paxos: a verified model of the consensus core

toy-paxos is a small Paxos simulation in Ruby. A client writes a value to a
cluster. One node becomes the proposer, stamps a new ballot and sends
`prepare` to every other node. The other nodes answer with `promise`. Once a
quorum of promises has arrived, the proposer sends `commit` to the others and
appends the decision to its own log. Acceptors append every commit whose ballot
is not older than the one they promised.

This project models that core in Dafny and proves properties of it:

- **Ballots** (`SequenceNumber`, module `Ballots`): a round number stamped with a
  node's identity. They are ordered first by round, then by the stamping
  identity.
- **Messages** (`Message`, module `Messages`): an immutable record whose
  constructor always re-stamps the ballot with the sender's identity.
- **Membership** (module `Membership`): `other_nodes` and `quorum_size`, shared by
  both node implementations.
- **Node state machine** (`PaxosNode` of `node.rb`):
  - module `NodeSpec` gives each transition as a pure function from the old
    state to the new state and the messages sent, in order;
  - module `Paxos` holds the node and cluster classes, whose methods update
    their fields in place and are proved equal to those functions;
  - module `NodeRuns` has properties of whole runs and of three-node schedules.
- **Cluster directory** (`PaxosCluster` of `cluster.rb`, module `Paxos`):
  registration, delegated reads and writes, and the `get_consensus` vote count.
  Module `Consensus` holds the vote-count arithmetic.
- **Prototype** (`main.rb`): its own node with integer ballots and a synchronous
  connection. Module `PrototypeSpec` gives the transitions as functions; module
  `Prototype` has the classes and `build_cluster`.

Modelling choices:
- A node's Ruby object identity becomes a natural number `id`. A node can only
  be created with an id that no member of its cluster has yet, and `register`
  accepts a node that is already a member or whose id no member has, as Ruby's
  object identities are unique across clusters. So a cluster's members keep
  distinct ids (`DistinctIds`) unless a member registers twice. With distinct ids, filtering by
  id removes exactly the node's own position (`Paxos.OtherMembers`), as
  Ruby's `reject` on objects does.
- A method that would hand messages to a network or connection returns them
  instead, as a sequence of `(target, message)` sends. Messages are delivered
  only between calls, in an order the caller chooses.
- Message types are strings in Ruby. A message's kind is a `MsgKind`, the
  classification `Messages.KindOf` gives of its type string, so the kind
  `Other` never holds one of the three protocol tags. `receive` picks its
  branch by the string as Ruby's `case` does (`NodeSpec.ReceiveByType`,
  `PrototypeSpec.ReceiveByType`).
- The random `sample` of a cluster becomes an index argument. Sampling an empty
  cluster, which makes Ruby call a method on `nil`, becomes the error
  `NoMembers`.
- In the prototype, comparing a missing (`nil`) sequence number raises in Ruby.
  It becomes the error `NilComparison`, and a raising `receive` changes nothing.

Three behaviours of the code that the model keeps:
- `write` in `node.rb` does not reset the promise counter.
- An unknown message type is silently ignored by `node.rb` and raises only in
  `main.rb`.
- A promise is re-stamped with the acceptor's identity, so the proposer's
  stale-promise check depends on identities. In the three-node schedule where
  every message is delivered once, first in first out, all three logs end up
  committing the written value only when the writer has the smallest identity
  (`NodeRuns.SmallestWriterCommits`). When the writer has the middle or the
  largest identity, the proposal stalls (`NodeRuns.MiddleWriterStalls`,
  `NodeRuns.LargestWriterStalls`).

## Model

| member | source | states |
|---|---|---|
| Ballots.Spaceship | sequence_number.rb:22-28 | integer `<=>` is -1, 0 or 1 exactly when the left side is smaller, equal or larger |
| Ballots.Compare | sequence_number.rb:22-28 | `<=>` is 0 iff round and identity are both equal; it is negative iff the ballot is lexicographically smaller in (round, identity), and positive iff it is larger |
| Ballots.Plus | sequence_number.rb:18-20 | `s + k` adds `k` to the round and keeps the stamp; for `k > 0` the result is strictly greater, and for `k = 0` it is the same ballot |
| Ballots.LessByRound | sequence_number.rb:22-28 | a smaller round makes a smaller ballot, whatever the identities |
| Ballots.TieBrokenBySender | sequence_number.rb:23-24 | with equal rounds, the order is decided by comparing identities alone |
| Ballots.CompareAntisymmetric | sequence_number.rb:22-28 | swapping the operands negates `<=>` |
| Ballots.LessIrreflexive | sequence_number.rb:6 | no ballot is below itself; every ballot is `<=` itself |
| Ballots.LessTransitive | sequence_number.rb:22-28 | `<` is transitive |
| Ballots.Trichotomy | sequence_number.rb:22-28 | any two ballots are ordered one way, the other way, or equal, and exactly one of these holds |
| Ballots.LessEqIsLessOrEqual | sequence_number.rb:6 | `<=` as `Comparable` derives it means `<` or equal, and is the negation of the reversed `<` |
| Ballots.SuccessorGreater | sequence_number.rb:18-28 | `s + 1 > s` for every ballot |
| Messages.KindOf | node.rb:25-29 | the type string is classified as prepare, promise or commit exactly when it is that tag, and as `Other` carrying the string otherwise, so `Other` never holds a protocol tag |
| Messages.TagOfKindOf | node.rb:25-29 | classifying a type string loses nothing: the string can be read back |
| Messages.KindOfTag | node.rb:25-29 | every kind that can occur is the classification of its own string |
| Messages.NewMessage | message.rb:7-16 | the ballot is always stamped with the sender; an existing ballot keeps its round; an integer becomes the round; type, value and sender are stored unchanged |
| Messages.RestampIdempotent | message.rb:9-10 | re-stamping a message's own ballot with its own sender gives an equal ballot |
| Messages.RestampKeepsRound | message.rb:9-10 | re-stamping keeps the round and replaces only the identity |
| Membership.QuorumSize | node.rb:129-131 | `count / 2 + 1` is a strict majority, and the smallest one, and for a non-empty cluster it is at most the membership |
| Membership.SmallQuorums | node.rb:129-131 | clusters of 1 to 5 nodes need 1, 2, 2, 3 and 3 votes |
| Membership.Except | node.rb:125-127 | `other_nodes` is never longer than the membership, and it is the whole list when the node is not a member |
| Membership.ExceptMembers | node.rb:125-127 | `other_nodes` holds exactly the members other than the node |
| Membership.ExceptCounts | node.rb:125-127 | `other_nodes` drops every occurrence of the node and keeps every other member as often as it is registered |
| Membership.DistinctAppend | cluster.rb:10-12 | registering an identity that no member has yet keeps the identities distinct |
| Membership.ExceptDistinct | node.rb:125-127 | with distinct identities, `other_nodes` of a member is the membership with exactly that member's position removed, order kept |
| Membership.Broadcast | node.rb:110-112 | `other_nodes.each { send_message }` sends one copy of the message to each other member, in membership order; both node implementations use it |
| Membership.ExceptOfThree | main.rb:117-119 | in a cluster of three distinct members, each member's `other_nodes` is the other two, in registration order |
| NodeSpec.Init | node.rb:7-20 | a new node is an acceptor with an empty log, no value and no promises; both ballots are round 0 under its own stamp |
| NodeSpec.Write | node.rb:104-113 | `write(v)`: the node becomes proposer of `v`; its ballot moves one round up and keeps its stamp; the tracker of reported values resets to round 0; the promise count and the log stay; exactly one prepare goes to each other member, carrying the new round under the node's own stamp; the node invariant is kept |
| NodeSpec.ReceivePrepare | node.rb:29-44 | a prepare not above the node's ballot changes nothing and sends nothing; a proposer seeing a higher one stores that round plus one under the prepare's own stamp (the `highest.sender` on which `NodeRuns.OwnPromiseIgnoredIff` turns), and sends fresh prepares, stamped with its own id, to all others and no promise; an acceptor adopts the higher ballot and sends one promise to the sender, for that round, carrying its last log entry or `nil` |
| NodeSpec.ReceivePromise | node.rb:48-80 | a promise is ignored by an acceptor or when it is below the ballot; otherwise a reported entry of a later ballot than the tracker replaces the proposal's value and the tracker, and the tracker never goes down; below quorum only the count rises; at quorum one commit goes to each other member, exactly that commit is appended to the log, the node steps down with count 0, and its ballot keeps the round under its own stamp |
| NodeSpec.ReceiveCommit | node.rb:85-91 | a proposer, or a node with a later ballot, drops a commit; otherwise it takes the commit's ballot and appends the commit; nothing is sent |
| NodeSpec.ReceiveByType | node.rb:25-93 | a message whose type string is "prepare", "promise" or "commit" is handled by that branch, and one of any other type is ignored |
| NodeSpec.Receive | node.rb:22-93 | unknown types are ignored; the log is only extended at its end, by at most one entry; rounds never go down; everything sent carries the node's stamp; a promise is sent only in answer to a prepare, alone, and to the prepare's sender; everything else goes to other members; the node invariant is kept |
| NodeRuns.StepPreserves | node.rb:22-113 | one write or delivery keeps the node invariant, extends the log at its end by at most one entry, never lowers the round and stamps every message sent |
| NodeRuns.RunPreserves | node.rb:22-113 | along any sequence of writes and deliveries, the node invariant holds, the log only grows at its end, by at most one entry per event, rounds never go down, and every message sent carries the node's stamp |
| NodeRuns.FreshRun | node.rb:7-113 | every state reachable from a new node satisfies the node invariant |
| NodeRuns.OwnPromiseIgnoredIff | node.rb:44-50 | the promise answering a node's own prepare reaches it re-stamped by the acceptor; with equal rounds the proposer ignores it exactly when the acceptor's identity is below the proposer's stamp |
| NodeRuns.FreshProposerCountsLargerAcceptors | node.rb:44-50 | for a new node, the promise answering its first prepare is ignored iff the acceptor's identity is smaller than its own |
| NodeRuns.FreshAcceptorPromises | node.rb:29-44 | a new acceptor promises round 1 to a first prepare, with no entry, and takes that ballot |
| NodeRuns.WriterReachesQuorum | node.rb:48-80 | in a three-node cluster, the smallest-identity writer counts the first promise and commits on the second, to both other members and to its own log |
| NodeRuns.AcceptorTakesCommit | node.rb:85-91 | an acceptor that promised round 1 logs that round's commit |
| NodeRuns.SmallestWriterCommits | node.rb:22-113 | three new nodes, first-in first-out delivery of one write: if the writer has the smallest identity, every log ends up holding the same single commit of the written value |
| NodeRuns.LargestWriterStalls | node.rb:48-63 | the same schedule with the writer holding the largest identity: both promises are ignored, nothing is committed anywhere and the writer remains proposer |
| NodeRuns.MiddleWriterStalls | node.rb:48-63 | the same schedule with the writer holding the middle identity: the smaller acceptor's promise is ignored, the larger one's is counted, one short of the quorum, so nothing is committed and the writer remains proposer |
| Consensus.TotalRemove | cluster.rb:29-31 | the sum of a tally's counts splits at any key |
| Consensus.TotalBump | cluster.rb:30 | `res[v] += 1` on a defaulted hash raises the sum of the counts by one |
| Consensus.CountsPrefix | cluster.rb:29-30 | one turn of `values.each { res[v] += 1 }`: the exact tally of a prefix of the values, advanced by the next value, is the exact tally of the next prefix |
| Consensus.CountsStep | cluster.rb:29-30 | counting one more value keeps the tally exact: each value's count is its number of occurrences, the keys are exactly the values seen, and the counts sum to the number of values |
| Paxos.PaxosCluster.constructor | cluster.rb:6-8 | a new cluster has no members |
| Paxos.PaxosCluster.Register | cluster.rb:10-12 | the node is appended at the end, without deduplication; earlier members stay as they were; a node that is not yet a member and brings a new id keeps the ids distinct |
| Paxos.PaxosCluster.Write | cluster.rb:15-17 | the write is delegated to the chosen member alone, with `write`'s effect on it; an empty cluster is an error |
| Paxos.PaxosCluster.Read | cluster.rb:19-22 | the chosen member's log, unchanged; an empty cluster is an error |
| Paxos.PaxosCluster.Votes | cluster.rb:25-27 | one value per member, in order: the value of its last log entry, or `nil` for an empty log |
| Paxos.PaxosCluster.GetConsensus | cluster.rb:24-32 | each value's count is the number of members whose last entry holds it, with empty logs counted under `nil`; exactly the values seen are keys, so others read as 0; the counts sum to the number of members; nothing is modified |
| Paxos.PaxosNode.constructor | node.rb:7-20 | for an id no member has yet, the node registers itself at the end of its cluster, keeps the members' ids distinct and starts in the initial state |
| Paxos.OtherMembers | node.rb:125-127 | in a cluster with distinct ids, a member's `other_nodes` is every other member, in order |
| Paxos.PaxosNode.SendToOthers | node.rb:110-112 | the loop sends the message to each other member once, in membership order |
| Paxos.PaxosNode.Read | node.rb:100-102 | the log is returned and nothing changes |
| Paxos.PaxosNode.Write | node.rb:104-113 | the fields and the sends are those of `NodeSpec.Write` for the node's cluster |
| Paxos.PaxosNode.Receive | node.rb:22-93 | the fields and the sends are those of `NodeSpec.Receive` for the node's current cluster and quorum |
| Paxos.PaxosNode.ReceivePrepare | node.rb:29-44 | the fields and the sends are those of `NodeSpec.ReceivePrepare` |
| Paxos.PaxosNode.ReceivePromise | node.rb:48-80 | the fields and the sends are those of `NodeSpec.ReceivePromise` |
| Paxos.PaxosNode.ReceiveCommit | node.rb:85-91 | the fields and the sends are those of `NodeSpec.ReceiveCommit` |
| PrototypeSpec.Init | main.rb:39-50 | a new prototype node is an acceptor at ballot 0 with nothing proposed, an empty log and no promises |
| PrototypeSpec.Write | main.rb:98-105 | the node becomes proposer of the value; the proposed ballot is one above the highest seen, which itself stays; the promise count and the log stay; one prepare for the proposed ballot goes to each other member |
| PrototypeSpec.ReceivePrepare | main.rb:56-61 | a proposer ignores every prepare; a missing ballot raises; a ballot `<=` the highest is ignored; otherwise the highest becomes that ballot and one promise with no ballot and no value goes to the sender |
| PrototypeSpec.ReceivePromise | main.rb:63-77 | an acceptor ignores promises; a proposer counts each one, with no ballot check; at quorum it sends commits of its value and proposed ballot to the others, appends the promise's own value to its log and steps down with count 0 |
| PrototypeSpec.ReceiveCommit | main.rb:79-83 | a proposer ignores commits; a missing ballot raises; an older ballot is ignored; otherwise the value is appended and the highest ballot stays |
| PrototypeSpec.ReceiveByType | main.rb:53-88 | a message whose type string is "prepare", "promise" or "commit" is handled by that branch, and one of any other type raises |
| PrototypeSpec.Receive | main.rb:52-88 | any other type raises; it raises exactly for that or for a missing ballot reaching an acceptor's prepare or commit check; otherwise the proposal stays, the log only grows at its end, by at most one, the highest ballot never goes down, sends carry the node's identity and the invariant is kept |
| PrototypeSpec.FreshAcceptorPromises | main.rb:56-61 | a new acceptor promises to a first prepare of ballot 1 and takes that ballot |
| PrototypeSpec.WriterCommitsOnSecondPromise | main.rb:63-77 | in a three-node cluster the writer counts the first promise and, on the second, commits to both others and logs the promise's `nil` value |
| PrototypeSpec.AcceptorTakesCommit | main.rb:79-83 | an acceptor at ballot 1 logs the value of a round-1 commit |
| PrototypeSpec.SynchronousWrite | main.rb:52-105 | three new nodes, one write, depth-first synchronous delivery: both acceptors log the written value; the writer logs `nil` and steps down |
| Prototype.Connection.SendMessage | main.rb:1-5 | the message is handed to `target.receive`; the result and the target's new fields are those of `PrototypeSpec.Receive` |
| Prototype.PaxosCluster.constructor | main.rb:10-12 | a new cluster has no members |
| Prototype.PaxosCluster.Register | main.rb:14-16 | the node is appended at the end, without deduplication; a node that is not yet a member and brings a new id keeps the ids distinct |
| Prototype.PaxosCluster.Write | main.rb:19-21 | the write is delegated to the chosen member alone; an empty cluster is an error |
| Prototype.PaxosCluster.Read | main.rb:23-25 | the chosen member's log, unchanged; an empty cluster is an error |
| Prototype.PaxosNode.constructor | main.rb:39-50 | for an id no member has yet, the node gets a new connection, registers itself at the end of its cluster, keeps the members' ids distinct and starts in the initial state |
| Prototype.PaxosNode.SendToOthers | main.rb:102-104 | the loop sends the message to each other member once, in membership order |
| Prototype.PaxosNode.Read | main.rb:94-96 | the log is returned and nothing changes |
| Prototype.PaxosNode.Write | main.rb:98-105 | the fields and the sends are those of `PrototypeSpec.Write` |
| Prototype.PaxosNode.Receive | main.rb:52-88 | the fields and the result are those of `PrototypeSpec.Receive`; a raising receive changes no field |
| Prototype.ThreeMembers | main.rb:117-123 | with members 0, 1 and 2 the quorum is 2 and each member has two others |
| Prototype.BuildCluster | main.rb:127-133 | a new cluster of exactly three new, distinct nodes, registered in order, with distinct ids, each in the initial state, each with quorum 2 and two other members |

`OtherNodes` and `Quorum` of both node classes (node.rb:125-131,
main.rb:117-123), `Consensus.LastValue` (cluster.rb:26) and
`Messages.LastEntry` (node.rb:44) are one-line wrappers without a contract of
their own: they apply `Membership.Except` and `Membership.QuorumSize` to the
current cluster, or read the last log entry, and the rows of
`Membership.Except`, `Membership.QuorumSize`, `Paxos.PaxosCluster.Votes` and
`NodeSpec.ReceivePrepare` state what they compute.

## Left out

- `network.rb` is not part of this model. It drops and shuffles messages at random, and it drains its queue from inside `send_message`, so a node can receive messages while its own `other_nodes.each` loop is still running. Its queue is never emptied, so old messages are delivered again. The model delivers messages only between calls to a node. Delivery nested inside a node's own send loop is not modelled. One effect this misses: a promise delivered again during the commit loop reaches a node that is still proposer with its count at quorum, so one `receive` appends two commits.
- Paxos.PaxosNode.Read: returns the log as a value. Ruby returns the live `@log` array, an alias through which the caller could change the log and would see later appends. The same holds for Prototype.PaxosNode.Read and both clusters' `Read`.
- The random `sample` of `PaxosCluster#write` and `#read` is replaced by an index argument; no probabilities are modelled.
- Console output is not modelled: `puts`, and the `to_s` of messages, ballots and nodes.
- Ruby `object_id` is abstracted as a natural-number `id` per node.
- Agreement across nodes ("no two nodes commit different values") is not stated. The code does not promise it: it calls itself incomplete, and its stale-promise check depends on re-stamped identities. The model states per-transition properties, per-node invariants and concrete three-node schedules instead.
- Persistence and crash recovery are not modelled; the code has neither.
- Prototype.Connection.SendMessage: returns the target's sends instead of delivering them at once. Ruby's synchronous cascade of nested `receive` calls is replaced by the explicit depth-first schedule of `PrototypeSpec.SynchronousWrite`.
- NodeSpec.ReceivePromise: a promise whose value is a user payload rather than a log entry makes Ruby raise, because it asks that payload for its `sequence_number`. The model treats it as carrying no entry, so no value is adopted. Acceptors only ever send log entries or `nil` in promises.
- Messages.NewMessage: there is no case for an absent (`nil`) sequence number. That is `new_message`'s default, but every call in `node.rb` passes one.
- The prototype's `Message` class, `@last_agreed_value` and `attr_accessor` writer of `main.rb` are not modelled; nothing in the prototype uses them.
- `PaxosNode#proposer?` is read directly as the `isProposer` field.
