/** The payloads `generator` hands to the scan loop, and the order in which the loop walks them. */
module Payloads {

  /** One candidate payload together with the confidence tier it came from. */
  datatype Work = Work(tier: int, vect: string)

  /** `generator`'s result: confidence tiers in dict order, each with its payloads in order. */
  type Tiers = seq<(int, seq<string>)>

  /** The payloads of one tier, each labelled with the tier. */
  function Tagged(tier: int, vects: seq<string>): seq<Work> {
    seq(|vects|, i requires 0 <= i < |vects| => Work(tier, vects[i]))
  }

  /** Every payload in the order of the nested `for confidence, vects` / `for vect` loops. */
  function Flatten(tiers: Tiers): seq<Work> {
    if tiers == [] then []
    else Flatten(tiers[..|tiers| - 1]) + Tagged(tiers[|tiers| - 1].0, tiers[|tiers| - 1].1)
  }

  /** Position, in evaluation order, of payload `j` of tier `t`. */
  function Position(tiers: Tiers, t: nat, j: nat): nat
    requires t <= |tiers|
  {
    |Flatten(tiers[..t])| + j
  }

  /** How many payloads one parameter gets: `payload_count` when it is positive and below `total`, else `total`. */
  function Budget(cap: int, total: nat): nat {
    if cap > 0 && cap < total then cap else total
  }

  lemma FlattenSnoc(tiers: Tiers, t: nat)
    requires t < |tiers|
    ensures Flatten(tiers[..t + 1]) == Flatten(tiers[..t]) + Tagged(tiers[t].0, tiers[t].1)
  {
    assert tiers[..t + 1][..t] == tiers[..t];
  }

  lemma {:induction false} FlattenAppend(a: Tiers, b: Tiers)
    ensures Flatten(a + b) == Flatten(a) + Flatten(b)
  {
    if b == [] {
      assert a + b == a;
    } else {
      var b' := b[..|b| - 1];
      assert (a + b)[..|a + b| - 1] == a + b';
      assert (a + b)[|a + b| - 1] == b[|b| - 1];
      FlattenAppend(a, b');
    }
  }

  /** Payload `j` of tier `t` is evaluated at position `Position(tiers, t, j)`. */
  lemma FlattenAt(tiers: Tiers, t: nat, j: nat)
    requires t < |tiers| && j < |tiers[t].1|
    ensures Position(tiers, t, j) < |Flatten(tiers)|
    ensures Flatten(tiers)[Position(tiers, t, j)] == Work(tiers[t].0, tiers[t].1[j])
  {
    assert tiers == tiers[..t + 1] + tiers[t + 1..];
    FlattenAppend(tiers[..t + 1], tiers[t + 1..]);
    FlattenSnoc(tiers, t);
  }

  lemma {:induction false} PrefixLengthMonotone(tiers: Tiers, a: nat, b: nat)
    requires a <= b <= |tiers|
    ensures |Flatten(tiers[..a])| <= |Flatten(tiers[..b])|
  {
    if a < b {
      PrefixLengthMonotone(tiers, a, b - 1);
      FlattenSnoc(tiers, b - 1);
    }
  }

  /** A tier's payloads follow those of the earlier tiers and fit in the whole list. */
  lemma TierWithinFlatten(tiers: Tiers, t: nat)
    requires t < |tiers|
    ensures |Flatten(tiers[..t + 1])| == |Flatten(tiers[..t])| + |tiers[t].1|
    ensures |Flatten(tiers[..t + 1])| <= |Flatten(tiers)|
  {
    FlattenSnoc(tiers, t);
    PrefixLengthMonotone(tiers, t + 1, |tiers|);
    assert tiers[..|tiers|] == tiers;
  }

  /** Tiers are walked in order, and payloads in order within each tier. */
  lemma FlattenInTierOrder(tiers: Tiers, t1: nat, j1: nat, t2: nat, j2: nat)
    requires t1 < |tiers| && j1 < |tiers[t1].1|
    requires t2 < |tiers| && j2 < |tiers[t2].1|
    requires t1 < t2 || (t1 == t2 && j1 < j2)
    ensures Position(tiers, t1, j1) < Position(tiers, t2, j2)
  {
    if t1 < t2 {
      FlattenSnoc(tiers, t1);
      PrefixLengthMonotone(tiers, t1 + 1, t2);
    }
  }

  /** The `total` the scan computes by summing `len(v)` over the tiers. */
  method CountPayloads(tiers: Tiers) returns (total: nat)
    ensures total == |Flatten(tiers)|
  {
    total := 0;
    for i := 0 to |tiers|
      invariant total == |Flatten(tiers[..i])|
    {
      FlattenSnoc(tiers, i);
      total := total + |tiers[i].1|;
    }
    assert tiers[..|tiers|] == tiers;
  }
}
