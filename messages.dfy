/**
 * Protocol messages (`Message`): an immutable record of a type tag, a ballot,
 * an optional value and the sending node. The constructor always stamps the
 * ballot with the sender's identity, whether it is given an existing ballot
 * or a bare round number.
 */
module Messages {
  import opened Ballots

  /**
   * The `type` string, as `receive` dispatches on it. `Other` stands for any
   * tag other than the three protocol ones; a message's kind is a `MsgKind`,
   * so it never holds one of them.
   */
  datatype Kind = Prepare | Promise | Commit | Other(tag: string)

  /** A kind that `KindOf` can produce: `Other` never carries a protocol tag. */
  predicate WellFormedKind(k: Kind) {
    k.Other? ==> k.tag != "prepare" && k.tag != "promise" && k.tag != "commit"
  }

  /** The kind a message carries: the classification of its type string. */
  type MsgKind = k: Kind | WellFormedKind(k) witness Prepare

  /** The string a kind stands for. */
  function Tag(k: Kind): string {
    match k
    case Prepare => "prepare"
    case Promise => "promise"
    case Commit => "commit"
    case Other(t) => t
  }

  /** The `when "prepare"` / `"promise"` / `"commit"` dispatch on the type string. */
  function KindOf(tag: string): (k: MsgKind)
    ensures WellFormedKind(k)
    ensures k == Prepare <==> tag == "prepare"
    ensures k == Promise <==> tag == "promise"
    ensures k == Commit <==> tag == "commit"
    ensures k.Other? ==> k.tag == tag
  {
    if tag == "prepare" then Prepare
    else if tag == "promise" then Promise
    else if tag == "commit" then Commit
    else Other(tag)
  }

  /** Classifying a tag loses nothing: its string comes back. */
  lemma TagOfKindOf(tag: string)
    ensures Tag(KindOf(tag)) == tag
  {
  }

  /** Every kind that can occur is the classification of its own string. */
  lemma KindOfTag(k: Kind)
    requires WellFormedKind(k)
    ensures KindOf(Tag(k)) == k
  {
  }

  /** A user payload, as written to the cluster. */
  type Value = int

  /**
   * A message's `value`: `nil`, a log entry (what a promise carries) or a
   * user payload (what a commit carries).
   */
  datatype Payload = Nil | Entry(entry: Message) | Data(data: Value)

  datatype Message = Message(kind: MsgKind, ballot: SeqNum, value: Payload, sender: nat)

  /** The constructor's `sequence_number` argument: an existing ballot or a bare round. */
  datatype BallotArg = Existing(given: SeqNum) | Round(n: int)

  /** `Message.new(type, sequence_number, value, sender:)`. */
  function NewMessage(kind: MsgKind, arg: BallotArg, value: Payload, sender: nat): (m: Message)
    ensures m.ballot.sender == sender
    ensures arg.Existing? ==> m.ballot.num == arg.given.num
    ensures arg.Round? ==> m.ballot.num == arg.n
    ensures m.kind == kind && m.value == value && m.sender == sender
  {
    var num := match arg
      case Existing(b) => b.num
      case Round(n) => n;
    Message(kind, SeqNum(num, sender), value, sender)
  }

  /**
   * Re-stamping a message's own ballot with its own sender changes nothing;
   * every message built by `NewMessage` meets the requirement.
   */
  lemma RestampIdempotent(m: Message, kind: MsgKind, value: Payload)
    requires m.ballot.sender == m.sender
    ensures NewMessage(kind, Existing(m.ballot), value, m.sender).ballot == m.ballot
  {
  }

  /** Re-stamping keeps the round, so it preserves the order between rounds but not between senders. */
  lemma RestampKeepsRound(b: SeqNum, kind: MsgKind, value: Payload, sender: nat)
    ensures NewMessage(kind, Existing(b), value, sender).ballot == SeqNum(b.num, sender)
    ensures b.sender == sender ==> NewMessage(kind, Existing(b), value, sender).ballot == b
  {
  }

  /** `@log.last`: the last entry of a log, or `nil` for an empty log. */
  function LastEntry(log: seq<Message>): Payload {
    if log == [] then Nil else Entry(log[|log| - 1])
  }
}
