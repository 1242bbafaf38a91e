/** What a score says about any mixture of known and unknown signals, in terms of the signals and of literal weights. */
module ScoreMeaning {
  import opened Common
  import opened CandidateScoring

  /** The weight of a signal if it is known. */
  function Has(value: Option<int>, weight: nat): nat {
    if value == None then 0 else weight
  }

  function Times(value: Option<int>, weight: nat): int {
    if value == None then 0 else value.value * weight
  }

  /** The nearest integer to the quotient, the even one of two equally near. */
  predicate Nearest(n: int, num: int, den: int) {
    && -den <= 2 * (n * den - num) <= den
    && (2 * (n * den - num) == den || 2 * (n * den - num) == -den ==> n % 2 == 0)
  }

  /** No score without weight, otherwise the nearest one. */
  predicate IsScore(score: Option<int>, num: int, den: nat) {
    if den == 0 then score == None else score != None && Nearest(score.value, num, den)
  }

  predicate IsMeanOf(mean: Mean, num: int, weight: nat) {
    mean.Mean? && IsScore(mean.score, num, weight) && mean.coverage == weight
  }

  lemma {:induction false} MeanIs(items: seq<Item>, num: int, weight: nat)
    requires Weighted(items) && InRange(items)
    requires KnownSum(items) == num && KnownWeight(items) == weight && TotalWeight(items) == 100
    ensures IsMeanOf(WeightedKnown(items), num, weight)
  {
    WeightsOrdered(items);
    if weight > 0 { RoundIsNearest(num, weight, 0); }
    RoundExact(weight, 100);
  }

  function FitWeight(v: ScoreInput): nat {
    Has(v.productRelevance, 35) + Has(v.buyerRole, 25) + Has(v.countryMatch, 20) + Has(v.companySize, 10)
    + Has(v.industryMatch, 10)
  }

  function FitSum(v: ScoreInput): int {
    Times(v.productRelevance, 35) + Times(v.buyerRole, 25) + Times(v.countryMatch, 20) + Times(v.companySize, 10)
    + Times(v.industryMatch, 10)
  }

  function IntentWeight(v: ScoreInput): nat {
    Has(v.directPurchase, 40) + Has(v.recentActivity, 25) + Has(v.competitorSignal, 20) + Has(v.signalRecency, 15)
  }

  function IntentSum(v: ScoreInput): int {
    Times(v.directPurchase, 40) + Times(v.recentActivity, 25) + Times(v.competitorSignal, 20)
    + Times(v.signalRecency, 15)
  }

  function QualityWeight(v: ScoreInput): nat {
    Has(v.identityQuality, 25) + Has(v.sourceTrust, 25) + Has(v.contactability, 20) + Has(v.independentEvidence, 15)
    + Has(v.dataRecency, 15)
  }

  function QualitySum(v: ScoreInput): int {
    Times(v.identityQuality, 25) + Times(v.sourceTrust, 25) + Times(v.contactability, 20)
    + Times(v.independentEvidence, 15) + Times(v.dataRecency, 15)
  }

  lemma {:induction false} FitIs(v: ScoreInput)
    requires InRange(FitItems(v))
    ensures IsMeanOf(WeightedKnown(FitItems(v)), FitSum(v), FitWeight(v))
  {
    SumOfFive(FitItems(v));
    MeanIs(FitItems(v), FitSum(v), FitWeight(v));
  }

  lemma {:induction false} IntentIs(v: ScoreInput)
    requires InRange(IntentItems(v))
    ensures IsMeanOf(WeightedKnown(IntentItems(v)), IntentSum(v), IntentWeight(v))
  {
    SumOfFour(IntentItems(v));
    MeanIs(IntentItems(v), IntentSum(v), IntentWeight(v));
  }

  lemma {:induction false} QualityIs(v: ScoreInput)
    requires InRange(QualityItems(v))
    ensures IsMeanOf(WeightedKnown(QualityItems(v)), QualitySum(v), QualityWeight(v))
  {
    SumOfFive(QualityItems(v));
    MeanIs(QualityItems(v), QualitySum(v), QualityWeight(v));
  }

  function PriorityWeight(r: ScoreResult): nat {
    Has(r.fit, 50) + Has(r.intent, 30) + Has(r.quality, 20)
  }

  function PrioritySum(r: ScoreResult): int {
    Times(r.fit, 50) + Times(r.intent, 30) + Times(r.quality, 20)
  }

  /** Each dimension is the nearest integer to the weighted mean of its known signals, and the coverage the nearest
      percentage of the weight that is known. */
  lemma {:induction false} ScoresMean(v: ScoreInput)
    requires ScoreCandidate(v).Scored?
    ensures var r := ScoreCandidate(v).result;
            && IsScore(r.fit, FitSum(v), FitWeight(v))
            && IsScore(r.intent, IntentSum(v), IntentWeight(v))
            && IsScore(r.quality, QualitySum(v), QualityWeight(v))
            && Nearest(r.coverage, 50 * FitWeight(v) + 30 * IntentWeight(v) + 20 * QualityWeight(v), 100)
  {
    RefusedIff(v);
    FitIs(v);
    IntentIs(v);
    QualityIs(v);
    RoundIsNearest(50 * FitWeight(v) + 30 * IntentWeight(v) + 20 * QualityWeight(v), 100, 0);
  }

  /** The priority is the nearest integer to the weighted mean of the known dimensions; there is none without an intent
      signal and without product relevance, buyer role and industry match. */
  lemma {:induction false} PriorityMeans(v: ScoreInput)
    requires ScoreCandidate(v).Scored?
    ensures var r := ScoreCandidate(v).result;
            if IntentWeight(v) == 0 && v.productRelevance == None && v.buyerRole == None && v.industryMatch == None
            then r.priority == None
            else IsScore(r.priority, PrioritySum(r), PriorityWeight(r))
  {
    ScoresMean(v);
    var r := ScoreCandidate(v).result;
    SumOfThree(r.fit, r.intent, r.quality);
    MeanIs(PriorityItems(r.fit, r.intent, r.quality), PrioritySum(r), PriorityWeight(r));
  }

  /** The band follows from the priority, the coverage and whether an intent signal is known; so does the mode from the
      known signals. */
  lemma {:induction false} BandMeans(v: ScoreInput)
    requires ScoreCandidate(v).Scored?
    ensures var r := ScoreCandidate(v).result;
            && r.band
               == (if r.priority == None then BandUnknown
                   else if IntentWeight(v) == 0 then if r.priority.value < 55 then BandC else BandB
                   else if r.priority.value >= 85 && r.coverage >= 60 then BandS
                   else if r.priority.value >= 70 then BandA
                   else if r.priority.value >= 55 then BandB
                   else BandC)
            && r.mode
               == (if IntentWeight(v) > 0 then FullV1
                   else if v.productRelevance == None && v.buyerRole == None && v.industryMatch == None
                   then EvidenceOnlyProvisionalV1 else FitQualityProvisionalV1)
  {
    ScoresMean(v);
  }

  // ---------------------------------------------------------------------------
  // The gate
  // ---------------------------------------------------------------------------

  predicate Bars(f: GateFacts) {
    || f.policyBlocked || f.suppressed || f.duplicate || f.country == Mismatch || f.buyerTypeMatch == Some(false)
    || f.excludedBusiness || !f.independentIdentity || f.productEvidence == Some(false)
    || f.contactPath == Some(false) || f.staleSource
  }

  predicate Unsure(f: GateFacts) {
    || f.country == UnknownCountry || f.country == Conflicting || f.buyerTypeMatch == None
    || f.productEvidence == None || f.contactPath == None
  }

  function If(holds: bool, r: Reason): seq<Reason> {
    if holds then [r] else []
  }

  function Barring(f: GateFacts): seq<Reason> {
    If(f.policyBlocked, PolicyBlocked) + If(f.suppressed, Suppressed) + If(f.duplicate, Duplicate)
    + If(f.country == Mismatch, WrongCountry) + If(f.buyerTypeMatch == Some(false), WrongBuyerType)
    + If(f.excludedBusiness, ExcludedBusiness) + If(!f.independentIdentity, NoIndependentIdentity)
    + If(f.productEvidence == Some(false), InsufficientProductEvidence)
    + If(f.contactPath == Some(false), NoContactPath) + If(f.staleSource, StaleSource)
  }

  function Open(f: GateFacts): seq<Reason> {
    If(f.country == UnknownCountry, CountryUnknown) + If(f.country == Conflicting, CountryConflicting)
    + If(f.buyerTypeMatch == None, BuyerTypeUnknown) + If(f.productEvidence == None, ProductEvidenceUnknown)
    + If(f.contactPath == None, ContactPathUnknown)
  }

  lemma {:induction false} Barred(f: GateFacts)
    ensures Applicable(f, 0, 10) == Barring(f)
  {
    assert Applicable(f, 0, 0) == [];
    assert Applicable(f, 0, 1) == If(f.policyBlocked, PolicyBlocked);
    assert Applicable(f, 0, 2) == Applicable(f, 0, 1) + If(f.suppressed, Suppressed);
    assert Applicable(f, 0, 3) == Applicable(f, 0, 2) + If(f.duplicate, Duplicate);
    assert Applicable(f, 0, 4) == Applicable(f, 0, 3) + If(f.country == Mismatch, WrongCountry);
    assert Applicable(f, 0, 5) == Applicable(f, 0, 4) + If(f.buyerTypeMatch == Some(false), WrongBuyerType);
    assert Applicable(f, 0, 6) == Applicable(f, 0, 5) + If(f.excludedBusiness, ExcludedBusiness);
    assert Applicable(f, 0, 7) == Applicable(f, 0, 6) + If(!f.independentIdentity, NoIndependentIdentity);
    assert Applicable(f, 0, 8)
        == Applicable(f, 0, 7) + If(f.productEvidence == Some(false), InsufficientProductEvidence);
    assert Applicable(f, 0, 9) == Applicable(f, 0, 8) + If(f.contactPath == Some(false), NoContactPath);
    assert Applicable(f, 0, 10) == Applicable(f, 0, 9) + If(f.staleSource, StaleSource);
  }

  lemma {:induction false} LeftOpen(f: GateFacts)
    ensures Applicable(f, 10, 15) == Open(f)
  {
    assert Applicable(f, 10, 10) == [];
    assert Applicable(f, 10, 11) == If(f.country == UnknownCountry, CountryUnknown);
    assert Applicable(f, 10, 12) == Applicable(f, 10, 11) + If(f.country == Conflicting, CountryConflicting);
    assert Applicable(f, 10, 13) == Applicable(f, 10, 12) + If(f.buyerTypeMatch == None, BuyerTypeUnknown);
    assert Applicable(f, 10, 14) == Applicable(f, 10, 13) + If(f.productEvidence == None, ProductEvidenceUnknown);
    assert Applicable(f, 10, 15) == Applicable(f, 10, 14) + If(f.contactPath == None, ContactPathUnknown);
  }

  /** The gate rejects exactly for a fact that bars a candidate, and gives all of them in a fixed order; otherwise it
      asks for evidence exactly for a fact that is open, and gives all of those. */
  lemma {:induction false} GateDecides(f: GateFacts)
    ensures GateOf(f)
         == if Bars(f) then GateResult(Rejected, Barring(f))
            else if Unsure(f) then GateResult(NeedsEvidence, Open(f))
            else GateResult(Eligible, [])
  {
    Barred(f);
    LeftOpen(f);
    assert Bars(f) <==> |Barring(f)| > 0;
    assert Unsure(f) <==> |Open(f)| > 0;
  }
}
