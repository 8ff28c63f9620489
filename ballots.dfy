/**
 * Ballots (`SequenceNumber`): a round number namespaced by the identity of
 * the node that stamped it. Ballots are ordered lexicographically, first by
 * round and then by the stamping node's identity, so two nodes never produce
 * equal ballots.
 */
module Ballots {

  datatype SeqNum = SeqNum(num: int, sender: nat)

  /** Ruby's `<=>` on integers. */
  function Spaceship(x: int, y: int): (c: int)
    ensures c == -1 <==> x < y
    ensures c == 0 <==> x == y
    ensures c == 1 <==> x > y
  {
    if x < y then -1 else if x == y then 0 else 1
  }

  /** `a <=> b`: rounds decide unless they are equal, then the stamping identities do. */
  function Compare(a: SeqNum, b: SeqNum): (c: int)
    ensures -1 <= c <= 1
    ensures c == 0 <==> a == b
    ensures c < 0 <==> a.num < b.num || (a.num == b.num && a.sender < b.sender)
    ensures c > 0 <==> a.num > b.num || (a.num == b.num && a.sender > b.sender)
  {
    if a.num == b.num then Spaceship(a.sender, b.sender) else Spaceship(a.num, b.num)
  }

  /** `a < b` as `Comparable` derives it from `<=>`. */
  predicate Less(a: SeqNum, b: SeqNum) {
    Compare(a, b) < 0
  }

  /** `a <= b` as `Comparable` derives it from `<=>`. */
  predicate LessEq(a: SeqNum, b: SeqNum) {
    Compare(a, b) <= 0
  }

  /** `s + k`: a later (or earlier) round under the same stamp. */
  function Plus(s: SeqNum, k: int): (r: SeqNum)
    ensures r.num == s.num + k && r.sender == s.sender
    ensures k > 0 ==> Less(s, r)
    ensures k == 0 ==> r == s
  {
    SeqNum(s.num + k, s.sender)
  }

  lemma LessByRound(a: SeqNum, b: SeqNum)
    requires a.num < b.num
    ensures Less(a, b) && !LessEq(b, a)
  {
  }

  lemma TieBrokenBySender(a: SeqNum, b: SeqNum)
    requires a.num == b.num
    ensures Less(a, b) <==> a.sender < b.sender
    ensures Compare(a, b) == Spaceship(a.sender, b.sender)
  {
  }

  lemma CompareAntisymmetric(a: SeqNum, b: SeqNum)
    ensures Compare(a, b) == -Compare(b, a)
  {
  }

  lemma LessIrreflexive(a: SeqNum)
    ensures !Less(a, a) && LessEq(a, a)
  {
  }

  lemma LessTransitive(a: SeqNum, b: SeqNum, c: SeqNum)
    requires Less(a, b) && Less(b, c)
    ensures Less(a, c)
  {
  }

  /** Exactly one of `a < b`, `a == b`, `b < a` holds. */
  lemma Trichotomy(a: SeqNum, b: SeqNum)
    ensures Less(a, b) || a == b || Less(b, a)
    ensures !(Less(a, b) && Less(b, a))
    ensures a == b ==> !Less(a, b)
  {
  }

  lemma LessEqIsLessOrEqual(a: SeqNum, b: SeqNum)
    ensures LessEq(a, b) <==> Less(a, b) || a == b
    ensures LessEq(a, b) <==> !Less(b, a)
  {
  }

  lemma SuccessorGreater(s: SeqNum)
    ensures Less(s, Plus(s, 1))
  {
  }
}
