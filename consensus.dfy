/**
 * The vote count behind `get_consensus`: a tally from values to the number
 * of nodes whose last log entry holds that value, read with the default of
 * `Hash.new(0)`, and the total of all its counts.
 */
module Consensus {
  import opened Messages

  /** `n.read.last && n.read.last.value`: the value of the last entry, `nil` for an empty log. */
  function LastValue(log: seq<Message>): Payload {
    if log == [] then Nil else log[|log| - 1].value
  }

  /** `tally[v]` on a hash created with `Hash.new(0)`: absent keys read as 0. */
  function Count(tally: map<Payload, nat>, v: Payload): nat {
    if v in tally then tally[v] else 0
  }

  /** The sum of all counts in a tally. */
  ghost function Total(tally: map<Payload, nat>): nat
    decreases |tally|
  {
    if tally == map[] then 0
    else
      var v :| v in tally;
      tally[v] + Total(tally - {v})
  }

  /** The total can be split at any key, whichever key the definition picks. */
  lemma {:induction false} TotalRemove(tally: map<Payload, nat>, v: Payload)
    requires v in tally
    ensures Total(tally) == tally[v] + Total(tally - {v})
    decreases |tally|
  {
    var u :| u in tally && Total(tally) == tally[u] + Total(tally - {u});
    if u != v {
      TotalRemove(tally - {u}, v);
      TotalRemove(tally - {v}, u);
      assert tally - {u} - {v} == tally - {v} - {u};
    }
  }

  /** Counting one more vote for `v` raises the total by one. */
  lemma TotalBump(tally: map<Payload, nat>, v: Payload)
    ensures Total(tally[v := Count(tally, v) + 1]) == Total(tally) + 1
  {
    var bumped := tally[v := Count(tally, v) + 1];
    TotalRemove(bumped, v);
    if v in tally {
      TotalRemove(tally, v);
      assert bumped - {v} == tally - {v};
    } else {
      assert bumped - {v} == tally;
    }
  }

  /** `tally` counts the values of `votes`: key for key, with no other keys, summing to their number. */
  ghost predicate Counts(tally: map<Payload, nat>, votes: seq<Payload>) {
    && (forall v :: Count(tally, v) == multiset(votes)[v])
    && (forall v :: v in tally <==> v in votes)
    && Total(tally) == |votes|
  }

  /** Counting one more vote keeps the tally exact (`res[v] += 1`). */
  lemma CountsStep(tally: map<Payload, nat>, votes: seq<Payload>, v: Payload)
    requires Counts(tally, votes)
    ensures Counts(tally[v := Count(tally, v) + 1], votes + [v])
  {
    var bumped := tally[v := Count(tally, v) + 1];
    TotalBump(tally, v);
    assert multiset(votes + [v]) == multiset(votes) + multiset{v};
    forall u ensures Count(bumped, u) == multiset(votes + [v])[u] {
    }
    forall u ensures u in bumped <==> u in votes + [v] {
      assert u in votes + [v] <==> u in votes || u == v;
    }
  }

  /** The tally of a prefix, advanced by the next vote, is the tally of the next prefix. */
  lemma CountsPrefix(tally: map<Payload, nat>, votes: seq<Payload>, i: nat)
    requires i < |votes| && Counts(tally, votes[..i])
    ensures Counts(tally[votes[i] := Count(tally, votes[i]) + 1], votes[..i + 1])
  {
    CountsStep(tally, votes[..i], votes[i]);
    assert votes[..i + 1] == votes[..i] + [votes[i]];
  }
}
