/**
 * The golden dataset (server/app/services/golden_dataset.py): the
 * verifications of one sample are tallied by reputation-weighted vote; a
 * sample whose unweighted agreement on the top label reaches the consensus
 * threshold is promoted to a golden entry, one below the discard threshold
 * is dropped, and anything between waits for more votes. The new row ids
 * are parameters.
 */
module GoldenDataset {
  import opened Wrappers
  import opened Numeric
  import opened Config
  import opened SessionModel
  import opened VerificationModel
  import opened Records

  // ------------------------------------------------------------------ counting labels

  /** How often `x` occurs in `xs`. */
  function Occurrences(xs: seq<string>, x: string): (n: nat)
    ensures n <= |xs|
    ensures n > 0 <==> x in xs
    decreases |xs|
  {
    if |xs| == 0 then 0
    else Occurrences(xs[..|xs| - 1], x) + (if xs[|xs| - 1] == x then 1 else 0)
  }

  predicate NoDuplicates(xs: seq<string>) {
    forall i, j :: 0 <= i < j < |xs| ==> xs[i] != xs[j]
  }

  /** The distinct elements of `xs` in order of first appearance, as a dict's keys are. */
  function Distinct(xs: seq<string>): (d: seq<string>)
    ensures NoDuplicates(d)
    ensures forall x :: x in d <==> x in xs
    decreases |xs|
  {
    if |xs| == 0 then []
    else
      var prev := Distinct(xs[..|xs| - 1]);
      var x := xs[|xs| - 1];
      assert forall y :: y in xs <==> y in xs[..|xs| - 1] || y == x by {
        assert xs == xs[..|xs| - 1] + [x];
      }
      if x in prev then prev else prev + [x]
  }

  /** The occurrence counts of the listed values, summed. */
  function SumOccurrences(ls: seq<string>, xs: seq<string>): nat
    decreases |ls|
  {
    if |ls| == 0 then 0 else SumOccurrences(ls[..|ls| - 1], xs) + Occurrences(xs, ls[|ls| - 1])
  }

  lemma {:induction false} SumOccurrencesSnoc(ls: seq<string>, xs: seq<string>, y: string)
    ensures SumOccurrences(ls, xs + [y]) == SumOccurrences(ls, xs) + Occurrences(ls, y)
    decreases |ls|
  {
    assert (xs + [y])[..|xs|] == xs;
    if |ls| > 0 {
      SumOccurrencesSnoc(ls[..|ls| - 1], xs, y);
    }
  }

  lemma OccurrencesOfDistinct(d: seq<string>, y: string)
    requires NoDuplicates(d) && y in d
    ensures Occurrences(d, y) == 1
    decreases |d|
  {
    var last := d[|d| - 1];
    if last == y {
      assert y !in d[..|d| - 1];
    } else {
      OccurrencesOfDistinct(d[..|d| - 1], y);
    }
  }

  /** Every element is counted under exactly one distinct value: the counts add up to the length. */
  lemma {:induction false} DistinctCountsSum(xs: seq<string>)
    ensures SumOccurrences(Distinct(xs), xs) == |xs|
    decreases |xs|
  {
    if |xs| > 0 {
      var p := xs[..|xs| - 1];
      DistinctCountsSum(p);
      if xs[|xs| - 1] in Distinct(p) {
        RepeatedLastCounted(xs);
      } else {
        NewLastCounted(xs);
      }
    }
  }

  /** A last element already seen adds one to its own count. */
  lemma RepeatedLastCounted(xs: seq<string>)
    requires |xs| > 0 && xs[|xs| - 1] in Distinct(xs[..|xs| - 1])
    ensures SumOccurrences(Distinct(xs), xs) == SumOccurrences(Distinct(xs[..|xs| - 1]), xs[..|xs| - 1]) + 1
  {
    var d := Distinct(xs[..|xs| - 1]);
    assert Distinct(xs) == d;
    SumOccurrencesLast(d, xs);
    OccurrencesOfDistinct(d, xs[|xs| - 1]);
  }

  /** A last element not seen before becomes a new value counted once. */
  lemma NewLastCounted(xs: seq<string>)
    requires |xs| > 0 && xs[|xs| - 1] !in Distinct(xs[..|xs| - 1])
    ensures SumOccurrences(Distinct(xs), xs) == SumOccurrences(Distinct(xs[..|xs| - 1]), xs[..|xs| - 1]) + 1
  {
    var p := xs[..|xs| - 1];
    var y := xs[|xs| - 1];
    var d := Distinct(p);
    assert Distinct(xs) == d + [y];
    assert (d + [y])[..|d|] == d;
    assert SumOccurrences(d + [y], xs) == SumOccurrences(d, xs) + Occurrences(xs, y);
    SumOccurrencesLast(d, xs);
    assert Occurrences(d, y) == 0;
    assert Occurrences(p, y) == 0;
    assert Occurrences(xs, y) == 1;
  }

  /** The counts in `xs` are those in all but its last element, plus that element's count among the values. */
  lemma SumOccurrencesLast(ls: seq<string>, xs: seq<string>)
    requires |xs| > 0
    ensures SumOccurrences(ls, xs) == SumOccurrences(ls, xs[..|xs| - 1]) + Occurrences(ls, xs[|xs| - 1])
  {
    assert xs == xs[..|xs| - 1] + [xs[|xs| - 1]];
    SumOccurrencesSnoc(ls, xs[..|xs| - 1], xs[|xs| - 1]);
  }

  // ------------------------------------------------------------------ one vote

  /** `verified_label or original_label` for each verification, in row order. */
  function FinalLabels(vs: seq<Verification>): (ls: seq<string>)
    ensures |ls| == |vs|
    decreases |vs|
  {
    if |vs| == 0 then [] else FinalLabels(vs[..|vs| - 1]) + [FinalLabel(vs[|vs| - 1])]
  }

  lemma {:induction false} FinalLabelsAt(vs: seq<Verification>)
    ensures forall i :: 0 <= i < |vs| ==> FinalLabels(vs)[i] == FinalLabel(vs[i])
    decreases |vs|
  {
    if |vs| > 0 {
      FinalLabelsAt(vs[..|vs| - 1]);
    }
  }

  /** `reputation_score or 1.0`: a missing or zero score weighs 1. */
  function VoteWeight(v: Verification): (w: real)
    ensures w != 0.0
    ensures v.reputationScore.Some? && v.reputationScore.value != 0.0 ==> w == v.reputationScore.value
    ensures v.reputationScore.None? || v.reputationScore.value == 0.0 ==> w == 1.0
  {
    match v.reputationScore
    case Some(s) => if s != 0.0 then s else 1.0
    case None => 1.0
  }

  /** The weight cast for `l`, summed over the verifications. */
  function LabelWeight(vs: seq<Verification>, l: string): real
    decreases |vs|
  {
    if |vs| == 0 then 0.0
    else LabelWeight(vs[..|vs| - 1], l) + (if FinalLabel(vs[|vs| - 1]) == l then VoteWeight(vs[|vs| - 1]) else 0.0)
  }

  /** `total_weight` after the loop. */
  function TotalWeight(vs: seq<Verification>): real
    decreases |vs|
  {
    if |vs| == 0 then 0.0 else TotalWeight(vs[..|vs| - 1]) + VoteWeight(vs[|vs| - 1])
  }

  /** `weighted_votes` after the loop over the verifications. */
  function Votes(vs: seq<Verification>): (m: map<string, real>)
    decreases |vs|
  {
    if |vs| == 0 then map[]
    else
      var m := Votes(vs[..|vs| - 1]);
      var l := FinalLabel(vs[|vs| - 1]);
      m[l := (if l in m then m[l] else 0.0) + VoteWeight(vs[|vs| - 1])]
  }

  /** The tally holds exactly the labels voted for, each with its summed weight. */
  lemma {:induction false} VotesAreLabelWeights(vs: seq<Verification>)
    ensures forall l :: l in Votes(vs) <==> l in FinalLabels(vs)
    ensures forall l :: l in Votes(vs) ==> Votes(vs)[l] == LabelWeight(vs, l)
    decreases |vs|
  {
    if |vs| > 0 {
      var p := vs[..|vs| - 1];
      VotesAreLabelWeights(p);
      assert FinalLabels(vs) == FinalLabels(p) + [FinalLabel(vs[|vs| - 1])];
      forall l | l !in FinalLabels(p) ensures LabelWeight(p, l) == 0.0 {
        LabelWeightUnvoted(p, l);
      }
    }
  }

  lemma {:induction false} LabelWeightUnvoted(vs: seq<Verification>, l: string)
    requires l !in FinalLabels(vs)
    ensures LabelWeight(vs, l) == 0.0
    decreases |vs|
  {
    if |vs| > 0 {
      var p := vs[..|vs| - 1];
      assert FinalLabels(vs) == FinalLabels(p) + [FinalLabel(vs[|vs| - 1])];
      LabelWeightUnvoted(p, l);
    }
  }

  /** With no negative score, a label's weight is positive when voted for and never exceeds the total. */
  lemma {:induction false} LabelWeightBounds(vs: seq<Verification>, l: string)
    requires NoNegativeScores(vs)
    ensures 0.0 <= LabelWeight(vs, l) <= TotalWeight(vs)
    ensures l in FinalLabels(vs) ==> LabelWeight(vs, l) > 0.0
    ensures Occurrences(FinalLabels(vs), l) == |vs| ==> LabelWeight(vs, l) == TotalWeight(vs)
    decreases |vs|
  {
    if |vs| > 0 {
      var p := vs[..|vs| - 1];
      assert FinalLabels(vs) == FinalLabels(p) + [FinalLabel(vs[|vs| - 1])];
      LabelWeightBounds(p, l);
      if Occurrences(FinalLabels(vs), l) == |vs| {
        assert FinalLabel(vs[|vs| - 1]) == l;
      }
    }
  }

  /** No verification carries a negative reputation score, so every weight is positive. */
  predicate NoNegativeScores(vs: seq<Verification>) {
    forall i :: 0 <= i < |vs| ==> vs[i].reputationScore.None? || vs[i].reputationScore.value >= 0.0
  }

  lemma {:induction false} TotalWeightPositive(vs: seq<Verification>)
    requires NoNegativeScores(vs)
    ensures |vs| > 0 <==> TotalWeight(vs) > 0.0
    ensures TotalWeight(vs) >= 0.0
    decreases |vs|
  {
    if |vs| > 0 {
      TotalWeightPositive(vs[..|vs| - 1]);
    }
  }

  // ------------------------------------------------------------------ consensus

  /** `max(weighted_votes, key=...)`: the first label, in insertion order, with the greatest weight. */
  function FirstMaxIndex(ls: seq<string>, votes: map<string, real>): (k: nat)
    requires |ls| > 0
    requires forall l :: l in ls ==> l in votes
    ensures k < |ls|
    ensures forall j :: 0 <= j < |ls| ==> votes[ls[j]] <= votes[ls[k]]
    ensures forall j :: 0 <= j < k ==> votes[ls[j]] < votes[ls[k]]
    decreases |ls|
  {
    if |ls| == 1 then 0
    else
      var b := FirstMaxIndex(ls[..|ls| - 1], votes);
      if votes[ls[|ls| - 1]] > votes[ls[b]] then |ls| - 1 else b
  }

  /** The position of the top label among the labels in first-appearance order. */
  function TopIndex(vs: seq<Verification>): (k: nat)
    requires |vs| > 0
    ensures var d := Distinct(FinalLabels(vs));
      && k < |d| && (forall l :: l in d ==> l in Votes(vs))
      && (forall j :: 0 <= j < |d| ==> Votes(vs)[d[j]] <= Votes(vs)[d[k]])
      && (forall j :: 0 <= j < k ==> Votes(vs)[d[j]] < Votes(vs)[d[k]])
  {
    var labels := FinalLabels(vs);
    var d := Distinct(labels);
    VotesAreLabelWeights(vs);
    assert labels[0] in d;
    FirstMaxIndex(d, Votes(vs))
  }

  /**
   * What `_calculate_consensus` returns: nothing to report when the total
   * weight is zero, otherwise the top label, its unweighted and weighted
   * agreement, the number of verifications and the label counts.
   */
  datatype Consensus =
    | NoVotes
    | Reached(topLabel: string, agreement: real, weightedAgreement: real, verificationCount: nat, distribution: map<string, nat>)
  {
    /** `consensus["agreement"]`, which is 0.0 when there were no votes. */
    function Agreement(): real {
      if NoVotes? then 0.0 else agreement
    }
  }

  /** `dict(Counter(labels))` */
  function Distribution(labels: seq<string>): (m: map<string, nat>)
    ensures forall l :: l in m <==> l in labels
    ensures forall l :: l in m ==> m[l] == Occurrences(labels, l)
  {
    map l | l in Distinct(labels) :: Occurrences(labels, l)
  }

  /** The consensus of the verifications of one sample, in row order. */
  function ConsensusOf(vs: seq<Verification>): Consensus
  {
    var total := TotalWeight(vs);
    if total == 0.0 then NoVotes
    else
      var labels := FinalLabels(vs);
      var top := Distinct(labels)[TopIndex(vs)];
      Reached(top, Occurrences(labels, top) as real / |vs| as real, Votes(vs)[top] / total, |vs|, Distribution(labels))
  }

  /** The top label was voted for, no label outweighs it, and a label seen earlier is strictly lighter. */
  lemma ConsensusIsHeaviest(vs: seq<Verification>)
    requires ConsensusOf(vs).Reached?
    ensures var c := ConsensusOf(vs);
      && c.topLabel in FinalLabels(vs)
      && (forall l :: l in FinalLabels(vs) ==> LabelWeight(vs, l) <= LabelWeight(vs, c.topLabel))
      && (forall j :: 0 <= j < |Distinct(FinalLabels(vs))| && Distinct(FinalLabels(vs))[j] == c.topLabel ==>
            forall i :: 0 <= i < j ==> LabelWeight(vs, Distinct(FinalLabels(vs))[i]) < LabelWeight(vs, c.topLabel))
  {
    var d := Distinct(FinalLabels(vs));
    var k := TopIndex(vs);
    var votes := Votes(vs);
    assert ConsensusOf(vs).topLabel == d[k];
    VotesAreLabelWeights(vs);
    forall l | l in FinalLabels(vs) ensures LabelWeight(vs, l) <= LabelWeight(vs, d[k]) {
      var j :| 0 <= j < |d| && d[j] == l;
      assert votes[d[j]] <= votes[d[k]];
    }
    forall j | 0 <= j < |d| && d[j] == d[k]
      ensures forall i :: 0 <= i < j ==> LabelWeight(vs, d[i]) < LabelWeight(vs, d[k])
    {
      assert j == k;
      forall i | 0 <= i < j ensures LabelWeight(vs, d[i]) < LabelWeight(vs, d[k]) {
        assert votes[d[i]] < votes[d[k]];
      }
    }
  }

  /**
   * With no negative reputation score: a consensus exists exactly when there
   * are verifications, and both agreements lie in (0, 1].
   */
  lemma ConsensusRanges(vs: seq<Verification>)
    requires NoNegativeScores(vs)
    ensures ConsensusOf(vs).Reached? <==> |vs| > 0
    ensures var c := ConsensusOf(vs);
      c.Reached? ==> 0.0 < c.agreement <= 1.0 && 0.0 < c.weightedAgreement <= 1.0 && c.verificationCount == |vs|
  {
    TotalWeightPositive(vs);
    var c := ConsensusOf(vs);
    if c.Reached? {
      VotesAreLabelWeights(vs);
      ConsensusIsHeaviest(vs);
      var n := Occurrences(FinalLabels(vs), c.topLabel);
      RatioBounds(n as real, |vs| as real);
      LabelWeightBounds(vs, c.topLabel);
      RatioBounds(LabelWeight(vs, c.topLabel), TotalWeight(vs));
    }
  }

  /** When every verification settles on the same label, that label wins with full agreement. */
  lemma ConsensusUnanimous(vs: seq<Verification>, x: string)
    requires |vs| > 0 && NoNegativeScores(vs)
    requires forall i :: 0 <= i < |vs| ==> FinalLabel(vs[i]) == x
    ensures ConsensusOf(vs).Reached?
    ensures ConsensusOf(vs).topLabel == x
    ensures ConsensusOf(vs).agreement == 1.0 && ConsensusOf(vs).weightedAgreement == 1.0
  {
    UnanimousTop(vs, x);
    var labels := FinalLabels(vs);
    FinalLabelsAt(vs);
    AllOccurrences(labels, x);
    RatioBounds(|vs| as real, |vs| as real);
    VotesAreLabelWeights(vs);
    LabelWeightBounds(vs, x);
    RatioBounds(TotalWeight(vs), TotalWeight(vs));
  }

  lemma UnanimousTop(vs: seq<Verification>, x: string)
    requires |vs| > 0 && NoNegativeScores(vs)
    requires forall i :: 0 <= i < |vs| ==> FinalLabel(vs[i]) == x
    ensures ConsensusOf(vs).Reached? && ConsensusOf(vs).topLabel == x
  {
    TotalWeightPositive(vs);
    ConsensusIsHeaviest(vs);
    var c := ConsensusOf(vs);
    FinalLabelsAt(vs);
    var labels := FinalLabels(vs);
    var j :| 0 <= j < |labels| && labels[j] == c.topLabel;
  }

  lemma {:induction false} AllOccurrences(xs: seq<string>, x: string)
    requires forall i :: 0 <= i < |xs| ==> xs[i] == x
    ensures Occurrences(xs, x) == |xs|
    decreases |xs|
  {
    if |xs| > 0 {
      AllOccurrences(xs[..|xs| - 1], x);
    }
  }

  /** The label counts of a consensus add up to the number of verifications. */
  lemma DistributionCountsAll(vs: seq<Verification>)
    ensures SumOccurrences(Distinct(FinalLabels(vs)), FinalLabels(vs)) == |vs|
  {
    DistinctCountsSum(FinalLabels(vs));
  }

  /** One more verification in the tally loop: its weight is added under its label ... */
  lemma VotesStep(vs: seq<Verification>, i: nat)
    requires i < |vs|
    ensures var l := FinalLabel(vs[i]);
      var m := Votes(vs[..i]);
      Votes(vs[..i + 1]) == m[l := (if l in m then m[l] else 0.0) + VoteWeight(vs[i])]
  {
    assert vs[..i + 1][..i] == vs[..i];
  }

  /** ... a label not seen before joins the order ... */
  lemma OrderStep(vs: seq<Verification>, i: nat)
    requires i < |vs|
    ensures var l := FinalLabel(vs[i]);
      Distinct(FinalLabels(vs[..i + 1])) == (if l in Votes(vs[..i]) then Distinct(FinalLabels(vs[..i])) else Distinct(FinalLabels(vs[..i])) + [l])
  {
    assert vs[..i + 1][..i] == vs[..i];
    VotesAreLabelWeights(vs[..i]);
  }

  /** ... and to the total. */
  lemma TotalStep(vs: seq<Verification>, i: nat)
    requires i < |vs|
    ensures TotalWeight(vs[..i + 1]) == TotalWeight(vs[..i]) + VoteWeight(vs[i])
  {
    assert vs[..i + 1][..i] == vs[..i];
  }

  /** The three steps together, for the loop's current values. */
  lemma TallyStep(vs: seq<Verification>, i: nat, m: map<string, real>, o: seq<string>, t: real)
    requires i < |vs|
    requires m == Votes(vs[..i]) && o == Distinct(FinalLabels(vs[..i])) && t == TotalWeight(vs[..i])
    ensures var l := FinalLabel(vs[i]);
      var w := VoteWeight(vs[i]);
      Votes(vs[..i + 1]) == m[l := (if l in m then m[l] else 0.0) + w]
      && Distinct(FinalLabels(vs[..i + 1])) == (if l !in m then o + [l] else o)
      && TotalWeight(vs[..i + 1]) == t + w
  {
    VotesStep(vs, i);
    OrderStep(vs, i);
    TotalStep(vs, i);
  }

  /** The accumulation loop of `_calculate_consensus`: weighted votes per label in insertion order, and their total. */
  method Tally(vs: seq<Verification>) returns (weightedVotes: map<string, real>, order: seq<string>, totalWeight: real)
    ensures weightedVotes == Votes(vs)
    ensures order == Distinct(FinalLabels(vs))
    ensures totalWeight == TotalWeight(vs)
  {
    weightedVotes := map[];
    order := [];
    totalWeight := 0.0;
    var i := 0;
    while i < |vs|
      invariant 0 <= i <= |vs|
      invariant weightedVotes == Votes(vs[..i])
      invariant order == Distinct(FinalLabels(vs[..i]))
      invariant totalWeight == TotalWeight(vs[..i])
    {
      TallyStep(vs, i, weightedVotes, order, totalWeight);
      var voted := FinalLabel(vs[i]);
      var weight := VoteWeight(vs[i]);
      if voted !in weightedVotes {
        order := order + [voted];
      }
      weightedVotes := weightedVotes[voted := (if voted in weightedVotes then weightedVotes[voted] else 0.0) + weight];
      totalWeight := totalWeight + weight;
      i := i + 1;
    }
    assert vs[..i] == vs;
  }

  /** `_calculate_consensus`: tally the votes, then take the top label and its agreement. */
  method CalculateConsensus(vs: seq<Verification>) returns (c: Consensus)
    ensures c == ConsensusOf(vs)
  {
    var weightedVotes, order, totalWeight := Tally(vs);
    if totalWeight == 0.0 {
      return NoVotes;
    }
    var labels := FinalLabels(vs);
    var top := order[TopIndex(vs)];
    var weightedAgreement := weightedVotes[top] / totalWeight;
    var agreement := Occurrences(labels, top) as real / |vs| as real;
    c := Reached(top, agreement, weightedAgreement, |vs|, Distribution(labels));
  }

  // ------------------------------------------------------------------ decisions

  /** What `process_verification` decides for a sample. */
  datatype Decision = TooFewVotes | Promote(c: Consensus) | Discard | NeedMoreVotes

  function Decide(vs: seq<Verification>, cfg: Settings): (d: Decision)
    ensures d.TooFewVotes? <==> |vs| < cfg.minVerificationsForConsensus
    ensures d.Promote? ==> d.c == ConsensusOf(vs) && d.c.Agreement() >= cfg.consensusThreshold
    ensures d.Discard? ==> ConsensusOf(vs).Agreement() < cfg.discardThreshold && ConsensusOf(vs).Agreement() < cfg.consensusThreshold
    ensures d.NeedMoreVotes? ==> cfg.discardThreshold <= ConsensusOf(vs).Agreement() < cfg.consensusThreshold
  {
    if |vs| < cfg.minVerificationsForConsensus then TooFewVotes
    else
      var c := ConsensusOf(vs);
      if c.Agreement() >= cfg.consensusThreshold then Promote(c)
      else if c.Agreement() < cfg.discardThreshold then Discard
      else NeedMoreVotes
  }

  /** Enough unanimous votes with no negative score are always promoted, under the default settings too. */
  lemma UnanimousIsPromoted(vs: seq<Verification>, x: string, cfg: Settings)
    requires |vs| > 0 && |vs| >= cfg.minVerificationsForConsensus && cfg.consensusThreshold <= 1.0
    requires NoNegativeScores(vs)
    requires forall i :: 0 <= i < |vs| ==> FinalLabel(vs[i]) == x
    ensures Decide(vs, cfg).Promote? && Decide(vs, cfg).c.Reached? && Decide(vs, cfg).c.topLabel == x
  {
    ConsensusUnanimous(vs, x);
  }

  /** With the default settings, two of three votes (agreement 2/3) neither promote nor discard. */
  lemma TwoOfThreeWaits(vs: seq<Verification>)
    requires |vs| == 3 && NoNegativeScores(vs)
    requires ConsensusOf(vs).Reached? && Occurrences(FinalLabels(vs), ConsensusOf(vs).topLabel) == 2
    ensures Decide(vs, Defaults).NeedMoreVotes?
  {
  }

  // ------------------------------------------------------------------ the golden table

  /** Sample ids are unique among golden entries. */
  predicate UniqueSamples(rows: seq<GoldenEntry>) {
    forall i, j :: 0 <= i < j < |rows| ==> rows[i].sampleId != rows[j].sampleId
  }

  function FindGolden(rows: seq<GoldenEntry>, sampleId: Uuid): (r: Option<nat>)
    ensures r.Some? ==> r.value < |rows| && rows[r.value].sampleId == sampleId
    ensures r.None? ==> forall i :: 0 <= i < |rows| ==> rows[i].sampleId != sampleId
    decreases |rows|
  {
    if |rows| == 0 then None
    else if rows[|rows| - 1].sampleId == sampleId then Some(|rows| - 1)
    else FindGolden(rows[..|rows| - 1], sampleId)
  }

  /** The message `_promote_to_golden` raises for a sample it cannot find. */
  function SampleNotFound(sampleId: Uuid): string {
    "Sample not found: " + sampleId
  }

  /** The `KeyError` a consensus without votes raises when its count is read. */
  const MissingCount: string := "KeyError: 'verification_count'"

  /**
   * `_promote_to_golden` on the golden rows: refresh an existing entry, or
   * create one from the sample; the new rows and the entry, or the error.
   */
  function PromoteOp(rows: seq<GoldenEntry>, samples: map<Uuid, Sample>, sampleId: Uuid, c: Consensus, domain: string, newId: Uuid)
    : (r: (seq<GoldenEntry>, Result<GoldenEntry, string>))
    ensures r.1.Err? ==> r.0 == rows
    ensures r.1.Ok? ==> c.Reached? && r.1.value.sampleId == sampleId && r.1.value.verifiedLabel == c.topLabel
    ensures r.1.Ok? ==> r.1.value.agreementScore == c.agreement && r.1.value.confidenceScore == c.weightedAgreement
    ensures r.1.Ok? ==> r.1.value.weightedAgreement == c.weightedAgreement && r.1.value.verificationCount == c.verificationCount
    ensures FindGolden(rows, sampleId).None? && sampleId !in samples ==> r.1 == Err(SampleNotFound(sampleId))
    ensures c.NoVotes? && (FindGolden(rows, sampleId).Some? || sampleId in samples) ==> r.1 == Err(MissingCount)
    ensures r.1.Ok? ==> r.1.value in r.0
  {
    match FindGolden(rows, sampleId)
    case Some(i) =>
      if c.NoVotes? then (rows, Err(MissingCount))
      else
        var e := rows[i].(verifiedLabel := c.topLabel, confidenceScore := c.weightedAgreement,
                          verificationCount := c.verificationCount, agreementScore := c.agreement,
                          weightedAgreement := c.weightedAgreement);
        var out := rows[i := e];
        assert out[i] == e;
        (out, Ok(e))
    case None =>
      if sampleId !in samples then (rows, Err(SampleNotFound(sampleId)))
      else if c.NoVotes? then (rows, Err(MissingCount))
      else
        var e := GoldenEntry(newId, sampleId, samples[sampleId].dataType, c.topLabel, c.weightedAgreement,
                             c.verificationCount, c.agreement, c.weightedAgreement, Some(domain));
        (rows + [e], Ok(e))
  }

  /** Promotion keeps one entry per sample, and a second promotion of the same sample adds no row. */
  lemma PromoteKeepsSamplesUnique(rows: seq<GoldenEntry>, samples: map<Uuid, Sample>, sampleId: Uuid, c: Consensus, domain: string, newId: Uuid)
    requires UniqueSamples(rows)
    ensures UniqueSamples(PromoteOp(rows, samples, sampleId, c, domain, newId).0)
    ensures FindGolden(rows, sampleId).Some? ==> |PromoteOp(rows, samples, sampleId, c, domain, newId).0| == |rows|
    ensures |PromoteOp(rows, samples, sampleId, c, domain, newId).0| <= |rows| + 1
    ensures forall i :: 0 <= i < |rows| && rows[i].sampleId != sampleId ==> PromoteOp(rows, samples, sampleId, c, domain, newId).0[i] == rows[i]
  {
  }

  /** The rows of `verifications` for one sample, in table order. */
  function SampleVerifications(rows: seq<Verification>, sampleId: Uuid): (vs: seq<Verification>)
    ensures forall v :: v in vs <==> v in rows && v.sampleId == sampleId
    ensures |vs| <= |rows|
    decreases |rows|
  {
    if |rows| == 0 then []
    else
      var prev := SampleVerifications(rows[..|rows| - 1], sampleId);
      var last := rows[|rows| - 1];
      assert forall v :: v in rows <==> v in rows[..|rows| - 1] || v == last by {
        assert rows == rows[..|rows| - 1] + [last];
      }
      if last.sampleId == sampleId then prev + [last] else prev
  }

  /** `process_verification` on the tables: the decision, then the promotion it may call for. */
  function ProcessOp(t: Tables, sampleId: Uuid, domain: string, newId: Uuid, cfg: Settings)
    : (r: (seq<GoldenEntry>, Result<Option<GoldenEntry>, string>))
    ensures !Decide(SampleVerifications(t.verifications, sampleId), cfg).Promote? ==> r == (t.golden, Ok(None))
    ensures r.1.Ok? && r.1.value.Some? ==> Decide(SampleVerifications(t.verifications, sampleId), cfg).Promote?
  {
    match Decide(SampleVerifications(t.verifications, sampleId), cfg)
    case Promote(c) =>
      var (rows, res) := PromoteOp(t.golden, t.samples, sampleId, c, domain, newId);
      (rows, if res.Ok? then Ok(Some(res.value)) else Err(res.error))
    case _ => (t.golden, Ok(None))
  }

  // ------------------------------------------------------------------ statistics and export

  /** One entry of `get_statistics`' `by_label`. */
  datatype LabelStat = LabelStat(count: nat, avgAgreement: real)

  datatype Statistics = Statistics(totalSamples: nat, byLabel: map<string, LabelStat>)

  function GoldenLabels(rows: seq<GoldenEntry>): (ls: seq<string>)
    ensures |ls| == |rows|
    ensures forall i :: 0 <= i < |rows| ==> ls[i] == rows[i].verifiedLabel
    decreases |rows|
  {
    if |rows| == 0 then [] else GoldenLabels(rows[..|rows| - 1]) + [rows[|rows| - 1].verifiedLabel]
  }

  /** The sum of the agreement scores of the entries verified as `l`. */
  function AgreementSum(rows: seq<GoldenEntry>, l: string): real
    decreases |rows|
  {
    if |rows| == 0 then 0.0
    else AgreementSum(rows[..|rows| - 1], l) + (if rows[|rows| - 1].verifiedLabel == l then rows[|rows| - 1].agreementScore else 0.0)
  }

  /** `get_statistics`: per label, how many entries and their mean agreement; and the entry count. */
  function GetStatistics(rows: seq<GoldenEntry>): (s: Statistics)
    ensures s.totalSamples == |rows|
    ensures forall l :: l in s.byLabel <==> exists i :: 0 <= i < |rows| && rows[i].verifiedLabel == l
    ensures forall l :: l in s.byLabel ==> s.byLabel[l].count == Occurrences(GoldenLabels(rows), l) > 0
    ensures forall l :: l in s.byLabel ==> IsMean(s.byLabel[l].avgAgreement, AgreementSum(rows, l), s.byLabel[l].count)
  {
    var labels := GoldenLabels(rows);
    assert forall l :: l in labels <==> exists i :: 0 <= i < |rows| && rows[i].verifiedLabel == l by {
      forall l | l in labels ensures exists i :: 0 <= i < |rows| && rows[i].verifiedLabel == l {
        var i :| 0 <= i < |labels| && labels[i] == l;
      }
    }
    Statistics(|rows|, map l | l in Distinct(labels) ::
      LabelStat(Occurrences(labels, l), Mean(AgreementSum(rows, l), Occurrences(labels, l))))
  }

  /** `m` is the mean of `count` values that sum to `sum`. */
  predicate IsMean(m: real, sum: real, count: nat) {
    m * count as real == sum
  }

  /** SQL `avg` over `count` values summing to `sum`. */
  function Mean(sum: real, count: nat): (m: real)
    requires count > 0
    ensures IsMean(m, sum, count)
  {
    sum / count as real
  }

  /** The per-label counts of the statistics add up to the total. */
  lemma StatisticsCountsAddUp(rows: seq<GoldenEntry>)
    ensures SumOccurrences(Distinct(GoldenLabels(rows)), GoldenLabels(rows)) == GetStatistics(rows).totalSamples
  {
    DistinctCountsSum(GoldenLabels(rows));
  }

  /** Scores between 0 and 1 sum, per label, to between 0 and the label's count. */
  lemma {:induction false} AgreementSumBounds(rows: seq<GoldenEntry>, l: string)
    requires forall i :: 0 <= i < |rows| ==> 0.0 <= rows[i].agreementScore <= 1.0
    ensures 0.0 <= AgreementSum(rows, l) <= Occurrences(GoldenLabels(rows), l) as real
    decreases |rows|
  {
    if |rows| > 0 {
      var init := rows[..|rows| - 1];
      AgreementSumBounds(init, l);
      assert GoldenLabels(rows)[..|rows| - 1] == GoldenLabels(init);
    }
  }

  /** The mean of values summing to between 0 and their count is between 0 and 1. */
  lemma UnitFraction(m: real, sum: real, n: nat)
    requires n > 0 && IsMean(m, sum, n) && 0.0 <= sum <= n as real
    ensures 0.0 <= m <= 1.0
  {
    var r := n as real;
    assert 0.0 * r <= m * r <= 1.0 * r;
    ScaleBack(0.0, m, r);
    ScaleBack(m, 1.0, r);
  }

  /** Dividing both sides of an inequality by a positive number. */
  lemma ScaleBack(a: real, b: real, r: real)
    requires r > 0.0 && a * r <= b * r
    ensures a <= b
  {
    assert (b - a) * r == b * r - a * r;
  }

  /** Agreement scores are fractions, so is every label's mean agreement. */
  lemma AverageAgreementIsFraction(rows: seq<GoldenEntry>, l: string)
    requires forall i :: 0 <= i < |rows| ==> 0.0 <= rows[i].agreementScore <= 1.0
    requires l in GetStatistics(rows).byLabel
    ensures 0.0 <= GetStatistics(rows).byLabel[l].avgAgreement <= 1.0
  {
    var st := GetStatistics(rows).byLabel[l];
    AgreementSumBounds(rows, l);
    UnitFraction(st.avgAgreement, AgreementSum(rows, l), st.count);
  }

  /** One row of `export_dataset`. */
  datatype ExportRow = ExportRow(sampleId: Uuid, verifiedLabel: string, confidence: real, agreement: real, dataType: string, dataUrl: Option<string>)

  /**
   * The filters of `export_dataset`'s query: the entry's sample exists (an
   * inner join), its agreement reaches the minimum and, when a non-empty data
   * type is given, its data type matches.
   */
  predicate Exportable(e: GoldenEntry, samples: map<Uuid, Sample>, dataType: Option<string>, minAgreement: real) {
    && e.sampleId in samples
    && e.agreementScore >= minAgreement
    && (dataType.None? || dataType.value == "" || e.dataType == dataType.value)
  }

  function ExportRows(rows: seq<GoldenEntry>, samples: map<Uuid, Sample>, dataType: Option<string>, minAgreement: real): (out: seq<ExportRow>)
    ensures |out| <= |rows|
    decreases |rows|
  {
    if |rows| == 0 then []
    else
      var prev := ExportRows(rows[..|rows| - 1], samples, dataType, minAgreement);
      var e := rows[|rows| - 1];
      if Exportable(e, samples, dataType, minAgreement) then
        prev + [ExportRow(e.sampleId, e.verifiedLabel, e.confidenceScore, e.agreementScore, e.dataType, samples[e.sampleId].dataUrl)]
      else prev
  }

  /** `export_dataset`: the matching entries in row order, at most `limit` of them. */
  function ExportDataset(rows: seq<GoldenEntry>, samples: map<Uuid, Sample>, dataType: Option<string>, minAgreement: real, limit: nat): (out: seq<ExportRow>)
    ensures |out| <= limit
  {
    var all := ExportRows(rows, samples, dataType, minAgreement);
    if |all| <= limit then all else all[..limit]
  }

  /** Every exported row comes from an entry passing the filters, and copies it. */
  lemma {:induction false} ExportSound(rows: seq<GoldenEntry>, samples: map<Uuid, Sample>, dataType: Option<string>, minAgreement: real)
    ensures forall r :: r in ExportRows(rows, samples, dataType, minAgreement) ==>
      exists i :: 0 <= i < |rows| && Exportable(rows[i], samples, dataType, minAgreement)
        && r.sampleId == rows[i].sampleId && r.verifiedLabel == rows[i].verifiedLabel && r.agreement == rows[i].agreementScore >= minAgreement
    decreases |rows|
  {
    if |rows| > 0 {
      var p := rows[..|rows| - 1];
      ExportSound(p, samples, dataType, minAgreement);
      forall r | r in ExportRows(rows, samples, dataType, minAgreement)
        ensures exists i :: (0 <= i < |rows| && Exportable(rows[i], samples, dataType, minAgreement)
          && r.sampleId == rows[i].sampleId && r.verifiedLabel == rows[i].verifiedLabel && r.agreement == rows[i].agreementScore >= minAgreement)
      {
        if r !in ExportRows(p, samples, dataType, minAgreement) {
          assert Exportable(rows[|rows| - 1], samples, dataType, minAgreement);
        } else {
          var i :| 0 <= i < |p| && Exportable(p[i], samples, dataType, minAgreement)
            && r.sampleId == p[i].sampleId && r.verifiedLabel == p[i].verifiedLabel && r.agreement == p[i].agreementScore >= minAgreement;
          assert p[i] == rows[i];
        }
      }
    }
  }

  /** Every entry passing the filters is exported when the limit does not cut the list short. */
  lemma {:induction false} ExportComplete(rows: seq<GoldenEntry>, samples: map<Uuid, Sample>, dataType: Option<string>, minAgreement: real, limit: nat, i: nat)
    requires i < |rows| && Exportable(rows[i], samples, dataType, minAgreement)
    requires |ExportRows(rows, samples, dataType, minAgreement)| <= limit
    ensures exists r :: r in ExportDataset(rows, samples, dataType, minAgreement, limit) && r.sampleId == rows[i].sampleId
  {
    ExportIncludes(rows, samples, dataType, minAgreement, i);
  }

  lemma {:induction false} ExportIncludes(rows: seq<GoldenEntry>, samples: map<Uuid, Sample>, dataType: Option<string>, minAgreement: real, i: nat)
    requires i < |rows| && Exportable(rows[i], samples, dataType, minAgreement)
    ensures exists r :: r in ExportRows(rows, samples, dataType, minAgreement) && r.sampleId == rows[i].sampleId
    decreases |rows|
  {
    var e := rows[|rows| - 1];
    if i < |rows| - 1 {
      ExportIncludes(rows[..|rows| - 1], samples, dataType, minAgreement, i);
      var r :| r in ExportRows(rows[..|rows| - 1], samples, dataType, minAgreement) && r.sampleId == rows[i].sampleId;
      assert r in ExportRows(rows, samples, dataType, minAgreement);
    } else {
      var r := ExportRow(e.sampleId, e.verifiedLabel, e.confidenceScore, e.agreementScore, e.dataType, samples[e.sampleId].dataUrl);
      assert r in ExportRows(rows, samples, dataType, minAgreement);
    }
  }

  // ------------------------------------------------------------------ the service

  /** `GoldenDatasetService` over the shared database. */
  class Service {
    const db: Db
    const cfg: Settings

    constructor (db: Db, cfg: Settings)
      ensures this.db == db && this.cfg == cfg
    {
      this.db := db;
      this.cfg := cfg;
    }

    /** `_promote_to_golden` */
    method PromoteToGolden(sampleId: Uuid, c: Consensus, domain: string, newId: Uuid) returns (r: Result<GoldenEntry, string>)
      modifies db
      ensures var op := PromoteOp(old(db.golden), old(db.samples), sampleId, c, domain, newId);
        db.golden == op.0 && r == op.1
      ensures db.Snapshot() == old(db.Snapshot()).(golden := db.golden)
    {
      var existing := FindGolden(db.golden, sampleId);
      if existing.Some? {
        if c.NoVotes? {
          return Err(MissingCount);
        }
        var e := db.golden[existing.value].(verifiedLabel := c.topLabel, confidenceScore := c.weightedAgreement,
                                            verificationCount := c.verificationCount, agreementScore := c.agreement,
                                            weightedAgreement := c.weightedAgreement);
        db.golden := db.golden[existing.value := e];
        return Ok(e);
      }
      if sampleId !in db.samples {
        return Err(SampleNotFound(sampleId));
      }
      if c.NoVotes? {
        return Err(MissingCount);
      }
      var e := GoldenEntry(newId, sampleId, db.samples[sampleId].dataType, c.topLabel, c.weightedAgreement,
                           c.verificationCount, c.agreement, c.weightedAgreement, Some(domain));
      db.golden := db.golden + [e];
      r := Ok(e);
    }

    /** `process_verification`: gather the sample's verifications, decide, and promote when the votes agree. */
    method ProcessVerification(sampleId: Uuid, domain: string, newId: Uuid) returns (r: Result<Option<GoldenEntry>, string>)
      modifies db
      ensures var op := ProcessOp(old(db.Snapshot()), sampleId, domain, newId, cfg);
        db.golden == op.0 && r == op.1
      ensures db.Snapshot() == old(db.Snapshot()).(golden := db.golden)
    {
      var vs := SampleVerifications(db.verifications, sampleId);
      if |vs| < cfg.minVerificationsForConsensus {
        return Ok(None);
      }
      var c := CalculateConsensus(vs);
      if c.Agreement() >= cfg.consensusThreshold {
        var promoted := PromoteToGolden(sampleId, c, domain, newId);
        r := if promoted.Ok? then Ok(Some(promoted.value)) else Err(promoted.error);
      } else {
        r := Ok(None);
      }
    }

    /** `get_statistics` */
    function CurrentStatistics(): (s: Statistics)
      reads db
      ensures s == GetStatistics(db.golden)
    {
      GetStatistics(db.golden)
    }
  }
}
