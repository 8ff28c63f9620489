/**
 * Cluster membership shared by both node implementations: `other_nodes`
 * (every member except the node itself), `quorum_size` (a strict majority
 * of the current membership) and the sending of one message to every other
 * member.
 *
 * Nodes are identified by a natural number that stands for Ruby's object
 * identity; distinct nodes have distinct identities.
 */
module Membership {

  /** `(count / 2) + 1`: the smallest number of members that is a strict majority. */
  function QuorumSize(count: nat): (q: nat)
    ensures 2 * q > count
    ensures 2 * (q - 1) <= count
    ensures 1 <= q <= count + 1
    ensures count > 0 ==> q <= count
  {
    count / 2 + 1
  }

  /** Quorums of the smallest clusters: a single node decides alone, two or three need two, four or five need three. */
  lemma SmallQuorums()
    ensures QuorumSize(1) == 1 && QuorumSize(2) == 2 && QuorumSize(3) == 2
    ensures QuorumSize(4) == 3 && QuorumSize(5) == 3
  {
  }

  /** `nodes.reject { |n| n == self }`: the members other than `self`, in membership order. */
  function Except(ids: seq<nat>, self: nat): (r: seq<nat>)
    ensures |r| <= |ids|
    ensures self !in ids ==> r == ids
  {
    if ids == [] then []
    else
      var rest := Except(ids[1..], self);
      assert ids == [ids[0]] + ids[1..];
      if ids[0] == self then rest else [ids[0]] + rest
  }

  /** `other_nodes` holds exactly the members other than the node itself. */
  lemma {:induction false} ExceptMembers(ids: seq<nat>, self: nat)
    ensures forall x :: x in Except(ids, self) <==> x in ids && x != self
  {
    if ids != [] {
      ExceptMembers(ids[1..], self);
      assert ids == [ids[0]] + ids[1..];
    }
  }

  /** `Except` removes every occurrence of `self` and keeps every other member as often as it occurs. */
  lemma {:induction false} ExceptCounts(ids: seq<nat>, self: nat)
    ensures multiset(Except(ids, self)) == multiset(ids)[self := 0]
  {
    if ids != [] {
      ExceptCounts(ids[1..], self);
      assert ids == [ids[0]] + ids[1..];
    }
  }

  /** No identity occurs twice. */
  predicate Distinct(ids: seq<nat>) {
    ids == [] || (ids[0] !in ids[1..] && Distinct(ids[1..]))
  }

  /** Appending an identity that does not occur yet keeps the identities distinct. */
  lemma {:induction false} DistinctAppend(ids: seq<nat>, x: nat)
    requires Distinct(ids) && x !in ids
    ensures Distinct(ids + [x])
  {
    if ids != [] {
      assert (ids + [x])[1..] == ids[1..] + [x];
      DistinctAppend(ids[1..], x);
    } else {
      assert ([x])[1..] == [];
    }
  }

  /**
   * With distinct identities, rejecting a member's identity removes exactly
   * that member's position, as rejecting the member object itself would.
   */
  lemma {:induction false} ExceptDistinct(ids: seq<nat>, k: nat)
    requires Distinct(ids) && k < |ids|
    ensures Except(ids, ids[k]) == ids[..k] + ids[k + 1..]
    decreases k
  {
    var tail := ids[1..];
    assert ids == [ids[0]] + tail;
    ExceptCons(ids[0], tail, ids[k]);
    if k == 0 {
      assert ids[..0] + ids[1..] == tail;
    } else {
      assert tail[k - 1] == ids[k];
      ExceptDistinct(tail, k - 1);
      assert ids[..k] == [ids[0]] + tail[..k - 1];
      assert ids[k + 1..] == tail[k..];
    }
  }

  /** `x` unless it is `self`. */
  function Keep(x: nat, self: nat): seq<nat> {
    if x == self then [] else [x]
  }

  /** `Except` one element at a time. */
  lemma ExceptCons(x: nat, rest: seq<nat>, self: nat)
    ensures Except([x] + rest, self) == Keep(x, self) + Except(rest, self)
  {
    assert ([x] + rest)[1..] == rest;
  }

  /** `Except` on a three-element list. */
  lemma ExceptTriple(a: nat, b: nat, c: nat, self: nat)
    ensures Except([a, b, c], self) == Keep(a, self) + Keep(b, self) + Keep(c, self)
  {
    var bc := [b, c];
    assert [c] + [] == [c];
    ExceptCons(c, [], self);
    assert [b] + [c] == bc;
    ExceptCons(b, [c], self);
    assert [a] + bc == [a, b, c];
    ExceptCons(a, bc, self);
  }

  /** `other_nodes` for each member of a cluster of three distinct nodes. */
  lemma ExceptOfThree(x: nat, y: nat, z: nat)
    requires x != y && x != z && y != z
    ensures Except([x, y, z], x) == [y, z]
    ensures Except([x, y, z], y) == [x, z]
    ensures Except([x, y, z], z) == [x, y]
  {
    ExceptTriple(x, y, z, x);
    ExceptTriple(x, y, z, y);
    ExceptTriple(x, y, z, z);
  }

  /** One `send_message(target, message)` call, for either node implementation's messages. */
  datatype Send<M> = Send(target: nat, msg: M)

  /** `other_nodes.each { |node| send_message(node, m) }`: the same message to each of `others`, in order. */
  function Broadcast<M>(others: seq<nat>, m: M): (r: seq<Send<M>>)
    ensures |r| == |others|
    ensures forall k :: 0 <= k < |r| ==> r[k].target == others[k] && r[k].msg == m
  {
    seq(|others|, k requires 0 <= k < |others| => Send(others[k], m))
  }
}
