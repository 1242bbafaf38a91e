/**
 The assessment of a candidate: its stored facts and evidence become the facts of the gate and
 the signals of the score. The test of excluded business terms against the company name, the
 buyer type and the product terms is a parameter.
 */
module CandidateAssessment {
  import opened Common
  import opened CandidateScoring

  datatype Tier = TierA | TierB | TierC | TierD | TierE | OtherTier

  datatype Validation = Valid | Unverified | OtherValidation

  datatype Evidence = Evidence(url: string, tier: Tier, validation: Validation)

  /** Texts are already in one case: buyer types in lower case, country codes in upper case. */
  datatype Subject = Subject(
    companyName: string,
    domain: string,
    country: CountryStatus,
    countryCode: string,
    buyerType: string,
    productTerms: seq<string>,
    claims: seq<string>,
    contactPaths: seq<string>,
    email: string)

  /** The profile of the mission, and whether its excluded terms match the subject. */
  datatype Target = Target(expectedBuyers: set<string>, targetCountries: set<string>, excluded: bool)

  function TrustValue(t: Tier): nat {
    match t case TierA => 100 case TierB => 80 case TierC => 60 case TierD => 40 case TierE => 20 case OtherTier => 0
  }

  predicate UsableEvidence(e: Evidence) {
    e.validation.Valid? || e.validation.Unverified?
  }

  function Usable(items: seq<Evidence>): seq<Evidence> {
    if items == [] then []
    else (if UsableEvidence(items[0]) then [items[0]] else []) + Usable(items[1..])
  }

  function BestTrust(items: seq<Evidence>): nat {
    if items == [] then 0
    else
      var rest := BestTrust(items[1..]);
      if TrustValue(items[0].tier) >= rest then TrustValue(items[0].tier) else rest
  }

  function Sources(items: seq<Evidence>): set<string> {
    set e | e in items && e.url != "" :: e.url
  }

  function BuyerMatch(s: Subject, t: Target): Option<bool> {
    if s.buyerType == "" then None else Some(t.expectedBuyers == {} || s.buyerType in t.expectedBuyers)
  }

  function GateCountry(s: Subject, t: Target): CountryStatus {
    if s.country.Confirmed? && t.targetCountries != {} && s.countryCode !in t.targetCountries then Mismatch
    else s.country
  }

  predicate HasContact(s: Subject) {
    s.contactPaths != [] || s.email != ""
  }

  predicate HasIdentity(s: Subject) {
    s.companyName != "" && s.domain != ""
  }

  function FactsOf(s: Subject, t: Target): GateFacts {
    GateFacts(
      GateCountry(s, t),
      BuyerMatch(s, t),
      t.excluded,
      HasIdentity(s),
      if s.productTerms != [] || s.claims != [] then Some(true) else None,
      if HasContact(s) then Some(true) else None,
      false, false, false, false)
  }

  function SignalsOf(s: Subject, t: Target, usable: seq<Evidence>): ScoreInput {
    NO_SIGNALS.(
      productRelevance := if s.productTerms != [] then Some(85) else None,
      buyerRole :=
        if BuyerMatch(s, t) == Some(true) then Some(85)
        else if BuyerMatch(s, t) == Some(false) then Some(0)
        else None,
      countryMatch :=
        if GateCountry(s, t).Confirmed? then Some(100)
        else if GateCountry(s, t).Mismatch? then Some(0)
        else None,
      industryMatch := if s.productTerms != [] then Some(70) else None,
      identityQuality := if HasIdentity(s) then Some(90) else None,
      sourceTrust := if BestTrust(usable) > 0 then Some(BestTrust(usable)) else None,
      contactability := if HasContact(s) then Some(80) else None,
      independentEvidence :=
        if |Sources(usable)| >= 2 then Some(80)
        else if Sources(usable) != {} then Some(50)
        else None,
      dataRecency := if usable != [] then Some(90) else None)
  }

  datatype Assessment = Assessment(gate: GateResult, score: Scoring)

  function Assess(s: Subject, t: Target, evidence: seq<Evidence>): Assessment {
    Assessment(GateOf(FactsOf(s, t)), ScoreCandidate(SignalsOf(s, t, Usable(evidence))))
  }

  // ---------------------------------------------------------------------------
  // The evidence counts as a set of usable items
  // ---------------------------------------------------------------------------

  lemma {:induction false} UsableMembers(items: seq<Evidence>, e: Evidence)
    ensures e in Usable(items) <==> e in items && UsableEvidence(e)
  {
    if items != [] { UsableMembers(items[1..], e); }
  }

  lemma {:induction false} BestTrustIsGreatest(items: seq<Evidence>)
    ensures forall e :: e in items ==> TrustValue(e.tier) <= BestTrust(items)
    ensures BestTrust(items) > 0 ==> exists e :: e in items && TrustValue(e.tier) == BestTrust(items)
    ensures BestTrust(items) <= 100
  {
    if items != [] {
      BestTrustIsGreatest(items[1..]);
      assert items[0] in items;
    }
  }

  /** Reordering or repeating evidence, or adding unusable items, changes nothing. */
  lemma {:induction false} OnlyUsableEvidenceCounts(s: Subject, t: Target, a: seq<Evidence>, b: seq<Evidence>)
    requires forall e :: UsableEvidence(e) ==> (e in a <==> e in b)
    ensures Assess(s, t, a) == Assess(s, t, b)
  {
    var x, y := Usable(a), Usable(b);
    forall e ensures e in x <==> e in y {
      UsableMembers(a, e);
      UsableMembers(b, e);
    }
    BestTrustIsGreatest(x);
    BestTrustIsGreatest(y);
    assert BestTrust(x) == BestTrust(y);
    assert Sources(x) == Sources(y);
    assert x == [] || x[0] in y;
    assert y == [] || y[0] in x;
  }

  // ---------------------------------------------------------------------------
  // Every assessment has a score, of bounded coverage
  // ---------------------------------------------------------------------------

  predicate Within100(value: Option<int>) {
    value.Some? ==> 0 <= value.value <= 100
  }

  /** Signals in range, with no intent and no company size. */
  predicate PartialSignals(v: ScoreInput) {
    && Within100(v.productRelevance) && Within100(v.buyerRole) && Within100(v.countryMatch)
        && Within100(v.industryMatch)
    && Within100(v.identityQuality) && Within100(v.sourceTrust) && Within100(v.contactability)
    && Within100(v.independentEvidence) && Within100(v.dataRecency)
    && v.companySize.None? && v.directPurchase.None? && v.recentActivity.None? && v.competitorSignal.None?
        && v.signalRecency.None?
  }

  lemma {:induction false} SignalsArePartial(s: Subject, t: Target, usable: seq<Evidence>)
    ensures PartialSignals(SignalsOf(s, t, usable))
  {
    BestTrustIsGreatest(usable);
  }

  lemma {:induction false} PartialMeans(v: ScoreInput)
    requires PartialSignals(v)
    ensures AllInRange(v) && !Known(IntentItems(v))
  {
  }

  lemma {:induction false} Partial(s: Subject, t: Target, evidence: seq<Evidence>)
    ensures var v := SignalsOf(s, t, Usable(evidence));
            AllInRange(v) && !Known(IntentItems(v)) && v.companySize.None?
  {
    SignalsArePartial(s, t, Usable(evidence));
    PartialMeans(SignalsOf(s, t, Usable(evidence)));
  }

  /** The mean of the five signals of a dimension, written out. */
  lemma {:induction false} FiveMean(a: Item, b: Item, c: Item, d: Item, e: Item)
    requires var items := [a, b, c, d, e]; Weighted(items) && InRange(items)
    ensures var w := KnownPart(a) + KnownPart(b) + KnownPart(c) + KnownPart(d) + KnownPart(e);
            var t := a.weight + b.weight + c.weight + d.weight + e.weight;
            var n := Part(a) + Part(b) + Part(c) + Part(d) + Part(e);
            && (w > 0 ==>
                  t > 0 &&
                  WeightedKnown([a, b, c, d, e]) ==
                  Mean(Some(RoundHalfEven(n, w)), RoundHalfEven(100 * w, t)))
            && (w == 0 ==> WeightedKnown([a, b, c, d, e]) == Mean(None, 0))
  {
    var items := [a, b, c, d, e];
    SumOfFive(items);
    WeightsOrdered(items);
  }

  lemma {:induction false} FitMean(v: ScoreInput)
    requires AllInRange(v) && v.companySize.None?
    ensures var w := KnownPart(Item(v.productRelevance, 35)) + KnownPart(Item(v.buyerRole, 25))
                   + KnownPart(Item(v.countryMatch, 20)) + KnownPart(Item(v.industryMatch, 10));
            var n := Part(Item(v.productRelevance, 35)) + Part(Item(v.buyerRole, 25))
                   + Part(Item(v.countryMatch, 20)) + Part(Item(v.industryMatch, 10));
            && (w > 0 ==> WeightedKnown(FitItems(v)) == Mean(Some(RoundHalfEven(n, w)), RoundHalfEven(100 * w, 100)))
            && (w == 0 ==> WeightedKnown(FitItems(v)) == Mean(None, 0))
  {
    FiveMean(Item(v.productRelevance, 35), Item(v.buyerRole, 25), Item(v.countryMatch, 20), Item(v.companySize, 10),
        Item(v.industryMatch, 10));
  }

  lemma {:induction false} QualityMean(v: ScoreInput)
    requires AllInRange(v)
    ensures var w := KnownPart(Item(v.identityQuality, 25)) + KnownPart(Item(v.sourceTrust, 25))
        + KnownPart(Item(v.contactability, 20))
                   + KnownPart(Item(v.independentEvidence, 15)) + KnownPart(Item(v.dataRecency, 15));
            var n := Part(Item(v.identityQuality, 25)) + Part(Item(v.sourceTrust, 25))
                + Part(Item(v.contactability, 20))
                   + Part(Item(v.independentEvidence, 15)) + Part(Item(v.dataRecency, 15));
            && (w > 0 ==>
                  WeightedKnown(QualityItems(v)) ==
                  Mean(Some(RoundHalfEven(n, w)), RoundHalfEven(100 * w, 100)))
            && (w == 0 ==> WeightedKnown(QualityItems(v)) == Mean(None, 0))
  {
    FiveMean(Item(v.identityQuality, 25), Item(v.sourceTrust, 25), Item(v.contactability, 20),
        Item(v.independentEvidence, 15), Item(v.dataRecency, 15));
  }

  lemma {:induction false} FitCoverage(v: ScoreInput)
    requires AllInRange(v) && v.companySize.None?
    ensures WeightedKnown(FitItems(v)).Mean? && 0 <= WeightedKnown(FitItems(v)).coverage <= 90
  {
    FitMean(v);
    var w := KnownPart(Item(v.productRelevance, 35)) + KnownPart(Item(v.buyerRole, 25))
           + KnownPart(Item(v.countryMatch, 20)) + KnownPart(Item(v.industryMatch, 10));
    RoundBetween(100 * w, 100, 0, 90);
  }

  /** The four intent signals are never known and the company size is not either, so a computed assessment always
      has a score, covers at most 65 of 100 and is never in band S or A. */
  lemma {:induction false} CoverageAtMost65(s: Subject, t: Target, evidence: seq<Evidence>)
    ensures var score := Assess(s, t, evidence).score;
            && score.Scored? && 0 <= score.result.coverage <= 65
            && !score.result.band.BandS? && !score.result.band.BandA? && !score.result.mode.FullV1?
  {
    var v := SignalsOf(s, t, Usable(evidence));
    Partial(s, t, evidence);
    RefusedIff(v);
    FitCoverage(v);
    MeanBetween(QualityItems(v), 0, 100);
    PriorityNeedsRelevance(v);
    var fit, quality := WeightedKnown(FitItems(v)).coverage, WeightedKnown(QualityItems(v)).coverage;
    RoundBetween(fit * 50 + quality * 20, 100, 0, 65);
  }

  lemma {:induction false} MoreKnown(s: Subject, t: Target, x: seq<Evidence>, y: seq<Evidence>)
    requires forall e :: e in x ==> e in y
    ensures SignalsNoMoreKnown(SignalsOf(s, t, x), SignalsOf(s, t, y))
  {
    BestTrustIsGreatest(x);
    BestTrustIsGreatest(y);
    assert x == [] || x[0] in y;
    assert Sources(x) <= Sources(y);
  }

  /** More evidence never lowers the coverage. */
  lemma {:induction false} EvidenceRaisesCoverage(s: Subject, t: Target, a: seq<Evidence>, b: seq<Evidence>)
    requires forall e :: e in a ==> e in b
    ensures Assess(s, t, a).score.Scored? && Assess(s, t, b).score.Scored?
    ensures Assess(s, t, a).score.result.coverage <= Assess(s, t, b).score.result.coverage
  {
    var x, y := Usable(a), Usable(b);
    forall e | e in x ensures e in y {
      UsableMembers(a, e);
      UsableMembers(b, e);
    }
    CoverageAtMost65(s, t, a);
    CoverageAtMost65(s, t, b);
    MoreKnown(s, t, x, y);
    CoverageGrows(SignalsOf(s, t, x), SignalsOf(s, t, y));
  }

  // ---------------------------------------------------------------------------
  // Eligible candidates
  // ---------------------------------------------------------------------------

  /** Exactly what makes a candidate eligible: in particular a confirmed country that the target accepts. */
  lemma {:induction false} EligibleIff(s: Subject, t: Target, evidence: seq<Evidence>)
    ensures Assess(s, t, evidence).gate.disposition.Eligible? <==>
              && s.country.Confirmed? && (t.targetCountries == {} || s.countryCode in t.targetCountries)
              && s.buyerType != "" && (t.expectedBuyers == {} || s.buyerType in t.expectedBuyers)
              && !t.excluded && s.companyName != "" && s.domain != ""
              && (s.productTerms != [] || s.claims != []) && (s.contactPaths != [] || s.email != "")
  {
    var f := FactsOf(s, t);
    GateOfAnswers(f);
    if forall r :: !Applies(f, r) {
      assert !Applies(f, WrongCountry) && !Applies(f, CountryUnknown) && !Applies(f, CountryConflicting);
      assert !Applies(f, WrongBuyerType) && !Applies(f, BuyerTypeUnknown) && !Applies(f, ExcludedBusiness);
      assert !Applies(f, NoIndependentIdentity) && !Applies(f, ProductEvidenceUnknown)
          && !Applies(f, ContactPathUnknown);
    }
  }

  predicate EligibleSubject(s: Subject, t: Target) {
    && GateCountry(s, t).Confirmed? && BuyerMatch(s, t) == Some(true) && HasIdentity(s) && HasContact(s)
    && (s.productTerms != [] || s.claims != [])
  }

  lemma {:induction false} FitWithCountry(v: ScoreInput, terms: bool)
    requires AllInRange(v) && v.companySize.None? && v.countryMatch == Some(100) && v.buyerRole == Some(85)
    requires v.productRelevance == (if terms then Some(85) else None)
        && v.industryMatch == (if terms then Some(70) else None)
    ensures WeightedKnown(FitItems(v)).Mean? && WeightedKnown(FitItems(v)).score == Some(if terms then 87 else 92)
  {
    FitMean(v);
  }

  lemma {:induction false} EligibleFit(s: Subject, t: Target, evidence: seq<Evidence>)
    requires EligibleSubject(s, t)
    ensures var m := WeightedKnown(FitItems(SignalsOf(s, t, Usable(evidence))));
            m.Mean? && m.score == Some(if s.productTerms != [] then 87 else 92)
  {
    Partial(s, t, evidence);
    FitWithCountry(SignalsOf(s, t, Usable(evidence)), s.productTerms != []);
  }

  lemma {:induction false} QualityRounds(n: int, w: int)
    requires w > 0 && 64 * w <= n <= 91 * w
    ensures 64 <= RoundHalfEven(n, w) <= 91
  {
    RoundBetween(n, w, 64, 91);
  }

  lemma {:induction false} QualityBounds(v: ScoreInput)
    requires v.identityQuality == Some(90) && v.contactability == Some(80)
    requires v.sourceTrust.Some? ==> 20 <= v.sourceTrust.value <= 100 && v.dataRecency.Some?
    requires v.independentEvidence.Some? ==> v.dataRecency.Some?
    requires v.independentEvidence.Some? ==> v.independentEvidence.value == 50 || v.independentEvidence.value == 80
    requires v.dataRecency.Some? ==> v.dataRecency.value == 90
    ensures var w := KnownPart(Item(v.identityQuality, 25)) + KnownPart(Item(v.sourceTrust, 25))
        + KnownPart(Item(v.contactability, 20))
                   + KnownPart(Item(v.independentEvidence, 15)) + KnownPart(Item(v.dataRecency, 15));
            var n := Part(Item(v.identityQuality, 25)) + Part(Item(v.sourceTrust, 25))
                + Part(Item(v.contactability, 20))
                   + Part(Item(v.independentEvidence, 15)) + Part(Item(v.dataRecency, 15));
            w > 0 && 64 <= RoundHalfEven(n, w) <= 91
  {
    var w := KnownPart(Item(v.identityQuality, 25)) + KnownPart(Item(v.sourceTrust, 25))
        + KnownPart(Item(v.contactability, 20))
           + KnownPart(Item(v.independentEvidence, 15)) + KnownPart(Item(v.dataRecency, 15));
    var n := Part(Item(v.identityQuality, 25)) + Part(Item(v.sourceTrust, 25)) + Part(Item(v.contactability, 20))
           + Part(Item(v.independentEvidence, 15)) + Part(Item(v.dataRecency, 15));
    QualityRounds(n, w);
  }

  lemma {:induction false} EligibleQuality(s: Subject, t: Target, evidence: seq<Evidence>)
    requires EligibleSubject(s, t)
    ensures var m := WeightedKnown(QualityItems(SignalsOf(s, t, Usable(evidence))));
            m.Mean? && m.score.Some? && 64 <= m.score.value <= 91
  {
    Partial(s, t, evidence);
    var usable := Usable(evidence);
    BestTrustIsGreatest(usable);
    var v := SignalsOf(s, t, usable);
    if BestTrust(usable) > 0 {
      var e :| e in usable && TrustValue(e.tier) == BestTrust(usable);
    }
    assert Sources(usable) == {} || usable != [];
    QualityMean(v);
    QualityBounds(v);
  }

  lemma {:induction false} TwoDimensions(v: ScoreInput, fit: int, quality: int)
    requires AllInRange(v) && !Known(IntentItems(v)) && v.buyerRole.Some?
    requires WeightedKnown(FitItems(v)).Mean? && WeightedKnown(FitItems(v)).score == Some(fit)
    requires WeightedKnown(QualityItems(v)).Mean? && WeightedKnown(QualityItems(v)).score == Some(quality)
    ensures ScoreCandidate(v).Scored?
        && ScoreCandidate(v).result.priority == Some(RoundHalfEven(fit * 50 + quality * 20, 70))
    ensures ScoreCandidate(v).result.mode.FitQualityProvisionalV1?
  {
    RefusedIff(v);
    SumOfThree(Some(fit), None, Some(quality));
    assert PriorityItems(Some(fit), None, Some(quality))[0].value.Some?;
  }

  lemma {:induction false} TwoDimensionsAtLeast80(v: ScoreInput, fit: int, quality: int)
    requires AllInRange(v) && !Known(IntentItems(v)) && v.buyerRole.Some?
    requires WeightedKnown(FitItems(v)).Mean? && WeightedKnown(FitItems(v)).score == Some(fit)
    requires WeightedKnown(QualityItems(v)).Mean? && WeightedKnown(QualityItems(v)).score == Some(quality)
    requires 87 <= fit <= 92 && 64 <= quality <= 91
    ensures ScoreCandidate(v).Scored?
    ensures var r := ScoreCandidate(v).result;
            r.mode.FitQualityProvisionalV1? && r.band.BandB? && r.priority.Some? && 80 <= r.priority.value <= 92
  {
    TwoDimensions(v, fit, quality);
    RoundBetween(fit * 50 + quality * 20, 70, 80, 92);
  }

  /** Every eligible candidate gets a provisional priority from 80 to 92 in band B, whatever its evidence. */
  lemma {:induction false} EligiblePriority(s: Subject, t: Target, evidence: seq<Evidence>)
    requires Assess(s, t, evidence).gate.disposition.Eligible?
    ensures Assess(s, t, evidence).score.Scored?
    ensures var r := Assess(s, t, evidence).score.result;
            && r.mode.FitQualityProvisionalV1? && r.band.BandB?
            && r.priority.Some? && 80 <= r.priority.value <= 92
  {
    assert EligibleSubject(s, t) by { EligibleIff(s, t, evidence); }
    var v := SignalsOf(s, t, Usable(evidence));
    assert v.buyerRole.Some?;
    Partial(s, t, evidence);
    EligibleFit(s, t, evidence);
    EligibleQuality(s, t, evidence);
    TwoDimensionsAtLeast80(v, WeightedKnown(FitItems(v)).score.value, WeightedKnown(QualityItems(v)).score.value);
  }

  predicate EligibleWith(s: Subject, t: Target, evidence: seq<Evidence>, priority: int) {
    && Assess(s, t, evidence).gate.disposition.Eligible?
    && Assess(s, t, evidence).score.Scored? && Assess(s, t, evidence).score.result.priority == Some(priority)
  }

  lemma {:induction false} OneItem(e: Evidence)
    requires UsableEvidence(e)
    ensures Usable([e]) == [e] && BestTrust([e]) == TrustValue(e.tier)
    ensures |Sources([e])| == if e.url == "" then 0 else 1
  {
    assert Usable([e]) == [e] by { assert [e][1..] == []; }
    assert BestTrust([e]) == TrustValue(e.tier) by { assert [e][1..] == []; }
    assert Sources([e]) == if e.url == "" then {} else {e.url};
  }

  lemma {:induction false} QualityOf(v: ScoreInput, trust: int, independent: Option<int>, quality: int)
    requires AllInRange(v)
    requires v.identityQuality == Some(90) && v.sourceTrust == Some(trust) && v.contactability == Some(80)
    requires v.independentEvidence == independent && v.dataRecency == Some(90)
    requires (independent == None && trust == 100 && quality == 91)
        || (independent == Some(50) && trust == 20 && quality == 64)
    ensures WeightedKnown(QualityItems(v)).Mean? && WeightedKnown(QualityItems(v)).score == Some(quality)
  {
    QualityMean(v);
  }

  /** Both ends of that range are reached: 80 with product terms and one source of the lowest tier, 92 with claims
      but no product terms and one item of the highest tier that names no source. */
  lemma {:induction false} PriorityRangeIsTight(s: Subject, t: Target, e: Evidence, priority: int)
    requires EligibleSubject(s, t) && !t.excluded && UsableEvidence(e)
    requires if s.productTerms != [] then e.url != "" && e.tier.TierE? && priority == 80
             else e.url == "" && e.tier.TierA? && priority == 92
    ensures EligibleWith(s, t, [e], priority)
  {
    OneItem(e);
    Partial(s, t, [e]);
    EligibleFit(s, t, [e]);
    var v := SignalsOf(s, t, [e]);
    var fit, quality := if priority == 80 then 87 else 92, if priority == 80 then 64 else 91;
    QualityOf(v, TrustValue(e.tier), if priority == 80 then Some(50) else None, quality);
    assert RoundHalfEven(fit * 50 + quality * 20, 70) == priority;
    TwoDimensions(v, fit, quality);
    EligibleIff(s, t, [e]);
  }

  /** The fit of an eligible candidate, and the quality of its evidence, make its priority. */
  lemma {:induction false} EligibleScore(s: Subject, t: Target, evidence: seq<Evidence>, fit: int, quality: int)
    requires EligibleSubject(s, t) && fit == if s.productTerms != [] then 87 else 92
    requires var v := SignalsOf(s, t, Usable(evidence));
             AllInRange(v) && WeightedKnown(QualityItems(v)).Mean?
                 && WeightedKnown(QualityItems(v)).score == Some(quality)
    ensures var scoring := ScoreCandidate(SignalsOf(s, t, Usable(evidence)));
            scoring.Scored? && scoring.result.priority == Some(RoundHalfEven(fit * 50 + quality * 20, 70))
  {
    Partial(s, t, evidence);
    EligibleFit(s, t, evidence);
    TwoDimensions(SignalsOf(s, t, Usable(evidence)), fit, quality);
  }

  function WithUnknownCountry(s: Subject, code: string): Subject {
    s.(country := UnknownCountry, countryCode := code)
  }

  lemma {:induction false} FitWithoutCountry(v: ScoreInput, terms: bool)
    requires AllInRange(v) && v.companySize.None? && v.countryMatch.None? && v.buyerRole == Some(85)
    requires v.productRelevance == (if terms then Some(85) else None)
        && v.industryMatch == (if terms then Some(70) else None)
    ensures WeightedKnown(FitItems(v)).Mean? && WeightedKnown(FitItems(v)).score == Some(if terms then 83 else 85)
  {
    FitMean(v);
  }

  lemma {:induction false} UnknownCountryFit(s: Subject, t: Target, evidence: seq<Evidence>, code: string)
    requires EligibleSubject(s, t)
    ensures var m := WeightedKnown(FitItems(SignalsOf(WithUnknownCountry(s, code), t, Usable(evidence))));
            m.Mean? && m.score == Some(if s.productTerms != [] then 83 else 85)
  {
    Partial(WithUnknownCountry(s, code), t, evidence);
    FitWithoutCountry(SignalsOf(WithUnknownCountry(s, code), t, Usable(evidence)), s.productTerms != []);
  }

  lemma {:induction false} UnknownCountryGate(s: Subject, t: Target, code: string)
    requires EligibleSubject(s, t) && !t.excluded
    ensures GateOf(FactsOf(WithUnknownCountry(s, code), t)) == GateResult(NeedsEvidence, [CountryUnknown])
  {
  }

  lemma {:induction false} FitOfScore(v: ScoreInput)
    requires ScoreCandidate(v).Scored?
    ensures WeightedKnown(FitItems(v)).Mean? && ScoreCandidate(v).result.fit == WeightedKnown(FitItems(v)).score
  {
  }

  /** Without its country an eligible candidate only needs evidence, for that one reason, and has a lower fit. */
  lemma {:induction false} CountryMakesEligible(s: Subject, t: Target, evidence: seq<Evidence>, code: string)
    requires EligibleSubject(s, t) && !t.excluded
    ensures var before := Assess(WithUnknownCountry(s, code), t, evidence);
            && before.gate == GateResult(NeedsEvidence, [CountryUnknown]) && before.score.Scored?
            && before.score.result.fit == Some(if s.productTerms != [] then 83 else 85)
    ensures var after := Assess(s, t, evidence);
            && after.gate.disposition.Eligible? && after.score.Scored?
            && after.score.result.fit == Some(if s.productTerms != [] then 87 else 92)
  {
    var s' := WithUnknownCountry(s, code);
    UnknownCountryGate(s, t, code);
    CoverageAtMost65(s', t, evidence);
    FitOfScore(SignalsOf(s', t, Usable(evidence)));
    UnknownCountryFit(s, t, evidence, code);
    CoverageAtMost65(s, t, evidence);
    FitOfScore(SignalsOf(s, t, Usable(evidence)));
    EligibleFit(s, t, evidence);
    EligibleIff(s, t, evidence);
  }

  predicate PriorityFalls(before: Scoring, after: Scoring) {
    && before.Scored? && after.Scored? && before.result.priority.Some? && after.result.priority.Some?
    && 3 <= before.result.priority.value - after.result.priority.value <= 4
  }

  lemma {:induction false} RoundFalls(a: int, b: int)
    requires a - b == 250
    ensures 3 <= RoundHalfEven(a, 70) - RoundHalfEven(b, 70) <= 4
  {
    RoundIsNearest(a, 70, 0);
    RoundIsNearest(b, 70, 0);
  }

  lemma {:induction false} ScoreFallsWithTerms(s: Subject, s': Subject, t: Target, evidence: seq<Evidence>)
    requires EligibleSubject(s, t) && EligibleSubject(s', t) && s.productTerms == [] && s'.productTerms != []
    requires QualityItems(SignalsOf(s', t, Usable(evidence))) == QualityItems(SignalsOf(s, t, Usable(evidence)))
    ensures PriorityFalls(ScoreCandidate(SignalsOf(s, t, Usable(evidence))),
        ScoreCandidate(SignalsOf(s', t, Usable(evidence))))
  {
    Partial(s, t, evidence);
    Partial(s', t, evidence);
    EligibleQuality(s, t, evidence);
    var q := WeightedKnown(QualityItems(SignalsOf(s, t, Usable(evidence)))).score.value;
    EligibleScore(s, t, evidence, 92, q);
    EligibleScore(s', t, evidence, 87, q);
    RoundFalls(92 * 50 + q * 20, 87 * 50 + q * 20);
  }

  lemma {:induction false} StaysEligible(s: Subject, t: Target, evidence: seq<Evidence>)
    requires EligibleSubject(s, t) && !t.excluded
    ensures Assess(s, t, evidence).gate.disposition.Eligible?
  {
    EligibleIff(s, t, evidence);
  }

  /** Learning can lower the priority, and for assessments it always does: whatever the evidence, an eligible
      candidate known by its claims alone loses three or four points when its product terms become known, because
      they raise the known weight of the fit by signals below its mean. */
  lemma {:induction false} ProductTermsLowerPriority(s: Subject, t: Target, terms: seq<string>, evidence: seq<Evidence>)
    requires EligibleSubject(s, t) && !t.excluded && s.productTerms == [] && terms != []
    ensures var before, after := Assess(s, t, evidence), Assess(s.(productTerms := terms), t, evidence);
            && before.gate.disposition.Eligible? && after.gate.disposition.Eligible?
            && PriorityFalls(before.score, after.score)
  {
    var s' := s.(productTerms := terms);
    StaysEligible(s, t, evidence);
    StaysEligible(s', t, evidence);
    ScoreFallsWithTerms(s, s', t, evidence);
  }
}
