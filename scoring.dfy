/** What the scan loop makes of the efficiency vector `checker` returns for one payload. */
module Scoring {
  import opened Outcomes

  /** The vector after the zero-fill: `positions` zeros when `checker` returned nothing. */
  function ZeroFilled(efficiencies: seq<int>, positions: nat): (r: seq<int>)
    ensures efficiencies != [] ==> r == efficiencies
    ensures efficiencies == [] ==> |r| == positions && forall i :: 0 <= i < |r| ==> r[i] == 0
  {
    if efficiencies == [] then seq(positions, _ => 0) else efficiencies
  }

  /** The loop that appends one zero per reflection to an empty result. */
  method ZeroFill(efficiencies: seq<int>, positions: nat) returns (r: seq<int>)
    ensures r == ZeroFilled(efficiencies, positions)
  {
    r := efficiencies;
    if r == [] {
      for i := 0 to positions
        invariant |r| == i
        invariant forall k :: 0 <= k < i ==> r[k] == 0
      {
        r := r + [0];
      }
    }
  }

  /** Python's `max` over a non-empty list. */
  function Max(s: seq<int>): (m: int)
    requires s != []
    ensures m in s
    ensures forall x :: x in s ==> x <= m
  {
    if |s| == 1 then s[0]
    else
      var rest := Max(s[1..]);
      assert forall x :: x in s ==> x == s[0] || x in s[1..];
      if s[0] >= rest then s[0] else rest
  }

  /** An empty result from `checker` scores zero once at least one reflection exists. */
  lemma EmptyResultScoresZero(positions: nat)
    requires positions > 0
    ensures Max(ZeroFilled([], positions)) == 0
  {
    var z := ZeroFilled([], positions);
    var m := Max(z);
    assert z[0] == 0;
    assert m >= 0;
    assert exists i :: 0 <= i < |z| && z[i] == m;
  }

  /** The three outcomes of the classifier. */
  datatype Verdict = Conclusive | Probable | Insufficient

  /** Whether `display_payload` is called for this outcome. */
  predicate Shown(r: Result<Verdict>) {
    r == Ok(Conclusive) || r == Ok(Probable)
  }

  /**
   * The test on `bestEfficiency` and the SENT payload `vect`. Python's `or` does not look at
   * `vect[0]` when the score is 100; otherwise an empty `vect` raises `IndexError`.
   */
  function Classify(best: int, sent: string, minEfficiency: int): (r: Result<Verdict>)
    ensures r.Raised? <==> best != 100 && sent == ""
    ensures r.Raised? ==> r.error == IndexError
    ensures r == Ok(Conclusive) <==> best == 100 || (sent != "" && sent[0] == '\\' && best >= 95)
    ensures r == Ok(Probable) <==>
      best != 100 && sent != "" && !(sent[0] == '\\' && best >= 95) && best > minEfficiency
    ensures r == Ok(Insufficient) <==>
      best != 100 && sent != "" && !(sent[0] == '\\' && best >= 95) && best <= minEfficiency
  {
    if best == 100 then Ok(Conclusive)
    else if sent == "" then Raised(IndexError)
    else if sent[0] == '\\' && best >= 95 then Ok(Conclusive)
    else if best > minEfficiency then Ok(Probable)
    else Ok(Insufficient)
  }

  /** Within the 0..100 score range, a higher score is displayed whenever a lower one is. */
  lemma ShownIsMonotone(low: int, high: int, sent: string, minEfficiency: int)
    requires low <= high <= 100
    ensures Shown(Classify(low, sent, minEfficiency)) ==> Shown(Classify(high, sent, minEfficiency))
    ensures Classify(low, sent, minEfficiency) == Ok(Conclusive) ==> Classify(high, sent, minEfficiency) == Ok(Conclusive)
  {
  }

  /** The worked classifications: 100, 96 after a backslash, 96 and 85 against a floor of 90. */
  lemma ClassifyScenarios(sent: string)
    requires sent != "" && sent[0] != '\\'
    ensures Classify(100, sent, 90) == Ok(Conclusive)
    ensures Classify(96, "\\" + sent, 90) == Ok(Conclusive)
    ensures Classify(96, sent, 90) == Ok(Probable)
    ensures Classify(85, sent, 90) == Ok(Insufficient)
  {
  }
}
