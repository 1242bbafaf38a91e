/**
 The eligibility gate and the weighted score of a candidate. Signals are integers from 0 to
 100 or unknown; each of three dimensions is the rounded weighted mean of its known signals,
 and the priority is the rounded weighted mean of the known dimensions. Quotients are exact
 and rounding is half to even.
 */
module CandidateScoring {
  import opened Common

  // ---------------------------------------------------------------------------
  // The gate
  // ---------------------------------------------------------------------------

  datatype CountryStatus = Confirmed | UnknownCountry | Conflicting | Mismatch

  datatype GateFacts = GateFacts(
    country: CountryStatus,
    buyerTypeMatch: Option<bool>,
    excludedBusiness: bool,
    independentIdentity: bool,
    productEvidence: Option<bool>,
    contactPath: Option<bool>,
    duplicate: bool,
    suppressed: bool,
    policyBlocked: bool,
    staleSource: bool)

  datatype Reason =
    | PolicyBlocked | Suppressed | Duplicate | WrongCountry | WrongBuyerType | ExcludedBusiness
    | NoIndependentIdentity | InsufficientProductEvidence | NoContactPath | StaleSource
    | CountryUnknown | CountryConflicting | BuyerTypeUnknown | ProductEvidenceUnknown | ContactPathUnknown

  datatype Disposition = Eligible | NeedsEvidence | Rejected

  datatype GateResult = GateResult(disposition: Disposition, reasons: seq<Reason>)

  /** The fact behind every reason. */
  predicate Applies(f: GateFacts, r: Reason) {
    match r
    case PolicyBlocked => f.policyBlocked
    case Suppressed => f.suppressed
    case Duplicate => f.duplicate
    case WrongCountry => f.country.Mismatch?
    case WrongBuyerType => f.buyerTypeMatch == Some(false)
    case ExcludedBusiness => f.excludedBusiness
    case NoIndependentIdentity => !f.independentIdentity
    case InsufficientProductEvidence => f.productEvidence == Some(false)
    case NoContactPath => f.contactPath == Some(false)
    case StaleSource => f.staleSource
    case CountryUnknown => f.country.UnknownCountry?
    case CountryConflicting => f.country.Conflicting?
    case BuyerTypeUnknown => f.buyerTypeMatch.None?
    case ProductEvidenceUnknown => f.productEvidence.None?
    case ContactPathUnknown => f.contactPath.None?
  }

  predicate Rejecting(r: Reason) {
    !(r.CountryUnknown? || r.CountryConflicting? || r.BuyerTypeUnknown? || r.ProductEvidenceUnknown?
        || r.ContactPathUnknown?)
  }

  function Rank(r: Reason): nat {
    match r
    case PolicyBlocked => 0 case Suppressed => 1 case Duplicate => 2 case WrongCountry => 3 case WrongBuyerType => 4
    case ExcludedBusiness => 5 case NoIndependentIdentity => 6 case InsufficientProductEvidence => 7
    case NoContactPath => 8 case StaleSource => 9 case CountryUnknown => 10 case CountryConflicting => 11
    case BuyerTypeUnknown => 12 case ProductEvidenceUnknown => 13 case ContactPathUnknown => 14
  }

  ghost predicate InRankOrder(reasons: seq<Reason>) {
    forall i, j :: 0 <= i < j < |reasons| ==> Rank(reasons[i]) < Rank(reasons[j])
  }

  /** What the gate must return: every applicable rejection and nothing else if there is one, otherwise every
      applicable doubt, each once and in the fixed order. */
  ghost predicate GateAnswers(f: GateFacts, g: GateResult) {
    && (g.disposition.Rejected? <==> exists r :: Rejecting(r) && Applies(f, r))
    && (g.disposition.Eligible? <==> forall r :: !Applies(f, r))
    && InRankOrder(g.reasons)
    && (forall r :: r in g.reasons <==> Applies(f, r) && (g.disposition.Rejected? ==> Rejecting(r)))
  }

  lemma {:induction false} SameReasons(a: seq<Reason>, b: seq<Reason>)
    requires InRankOrder(a) && InRankOrder(b) && forall r :: r in a <==> r in b
    ensures a == b
  {
    assert a != [] ==> a[0] in a;
    assert b != [] ==> b[0] in b;
    if a != [] && b != [] {
      assert a[0] in b;
      assert b[0] in a;
      var i :| 0 <= i < |b| && b[i] == a[0];
      var j :| 0 <= j < |a| && a[j] == b[0];
      assert Rank(a[0]) <= Rank(a[j]) && Rank(b[0]) <= Rank(b[i]);
      assert a[0] == b[0];
      forall r ensures r in a[1..] <==> r in b[1..] {
        if r in a[1..] { assert r in a; assert r != a[0]; assert r in b; }
        if r in b[1..] { assert r in b; assert r != b[0]; assert r in a; }
      }
      SameReasons(a[1..], b[1..]);
    }
  }

  lemma {:induction false} GateAnswerUnique(f: GateFacts, g: GateResult, h: GateResult)
    requires GateAnswers(f, g) && GateAnswers(f, h)
    ensures g == h
  {
    assert g.disposition == h.disposition;
    SameReasons(g.reasons, h.reasons);
  }

  function ReasonAt(rank: nat): (r: Reason)
    requires rank < 15
    ensures Rank(r) == rank
  {
    match rank
    case 0 => PolicyBlocked case 1 => Suppressed case 2 => Duplicate case 3 => WrongCountry case 4 => WrongBuyerType
    case 5 => ExcludedBusiness case 6 => NoIndependentIdentity case 7 => InsufficientProductEvidence
    case 8 => NoContactPath case 9 => StaleSource case 10 => CountryUnknown case 11 => CountryConflicting
    case 12 => BuyerTypeUnknown case 13 => ProductEvidenceUnknown case _ => ContactPathUnknown
  }

  lemma {:induction false} RankInjective(r: Reason, q: Reason)
    ensures Rank(r) == Rank(q) ==> r == q
  {
  }

  function When(holds: bool, r: Reason): seq<Reason> {
    if holds then [r] else []
  }

  /** Ranks below the first are rejections, the others doubts. */
  const FIRST_DOUBT: nat := 10

  const NO_REASON: nat := 15

  /** The reasons of rank lo to hi that apply. */
  function Applicable(f: GateFacts, lo: nat, hi: nat): seq<Reason>
    requires lo <= hi <= NO_REASON
  {
    if lo == hi then []
    else
      var r := ReasonAt(hi - 1);
      Applicable(f, lo, hi - 1) + When(Applies(f, r), r)
  }

  lemma {:induction false} NextReason(f: GateFacts, before: seq<Reason>, next: Reason, lo: nat)
    requires InRankOrder(before) && lo <= Rank(next)
    requires forall r :: r in before <==> Applies(f, r) && lo <= Rank(r) < Rank(next)
    ensures var after := before + When(Applies(f, next), next);
            InRankOrder(after) && forall r :: r in after <==> Applies(f, r) && lo <= Rank(r) < Rank(next) + 1
  {
    var after := before + When(Applies(f, next), next);
    forall r ensures r in after <==> Applies(f, r) && lo <= Rank(r) < Rank(next) + 1 {
      RankInjective(r, next);
    }
    forall i, j | 0 <= i < j < |after| ensures Rank(after[i]) < Rank(after[j]) {
      assert after[i] == before[i];
      assert before[i] in before;
    }
  }

  lemma {:induction false} ApplicableReasons(f: GateFacts, lo: nat, hi: nat)
    requires lo <= hi <= NO_REASON
    ensures InRankOrder(Applicable(f, lo, hi))
    ensures forall r :: r in Applicable(f, lo, hi) <==> Applies(f, r) && lo <= Rank(r) < hi
  {
    if lo < hi {
      ApplicableReasons(f, lo, hi - 1);
      NextReason(f, Applicable(f, lo, hi - 1), ReasonAt(hi - 1), lo);
    }
  }

  method Rejections(f: GateFacts) returns (reasons: seq<Reason>)
    ensures reasons == Applicable(f, 0, FIRST_DOUBT)
  {
    reasons := When(f.policyBlocked, PolicyBlocked);
    assert reasons == Applicable(f, 0, 1);
    reasons := reasons + When(f.suppressed, Suppressed);
    assert reasons == Applicable(f, 0, 2);
    reasons := reasons + When(f.duplicate, Duplicate);
    assert reasons == Applicable(f, 0, 3);
    reasons := reasons + When(f.country.Mismatch?, WrongCountry);
    assert reasons == Applicable(f, 0, 4);
    reasons := reasons + When(f.buyerTypeMatch == Some(false), WrongBuyerType);
    assert reasons == Applicable(f, 0, 5);
    reasons := reasons + When(f.excludedBusiness, ExcludedBusiness);
    assert reasons == Applicable(f, 0, 6);
    reasons := reasons + When(!f.independentIdentity, NoIndependentIdentity);
    assert reasons == Applicable(f, 0, 7);
    reasons := reasons + When(f.productEvidence == Some(false), InsufficientProductEvidence);
    assert reasons == Applicable(f, 0, 8);
    reasons := reasons + When(f.contactPath == Some(false), NoContactPath);
    assert reasons == Applicable(f, 0, 9);
    reasons := reasons + When(f.staleSource, StaleSource);
    assert reasons == Applicable(f, 0, 10);
  }

  method Doubts(f: GateFacts) returns (reasons: seq<Reason>)
    ensures reasons == Applicable(f, FIRST_DOUBT, NO_REASON)
  {
    reasons := When(f.country.UnknownCountry?, CountryUnknown);
    assert reasons == Applicable(f, 10, 11);
    reasons := reasons + When(f.country.Conflicting?, CountryConflicting);
    assert reasons == Applicable(f, 10, 12);
    reasons := reasons + When(f.buyerTypeMatch.None?, BuyerTypeUnknown);
    assert reasons == Applicable(f, 10, 13);
    reasons := reasons + When(f.productEvidence.None?, ProductEvidenceUnknown);
    assert reasons == Applicable(f, 10, 14);
    reasons := reasons + When(f.contactPath.None?, ContactPathUnknown);
    assert reasons == Applicable(f, 10, 15);
  }

  /** The gate as a value. */
  function GateOf(f: GateFacts): GateResult {
    if Applicable(f, 0, FIRST_DOUBT) != [] then GateResult(Rejected, Applicable(f, 0, FIRST_DOUBT))
    else if Applicable(f, FIRST_DOUBT, NO_REASON) != []
        then GateResult(NeedsEvidence, Applicable(f, FIRST_DOUBT, NO_REASON))
    else GateResult(Eligible, [])
  }

  method EvaluateGate(f: GateFacts) returns (g: GateResult)
    ensures g == GateOf(f)
  {
    var rejected := Rejections(f);
    if rejected != [] {
      g := GateResult(Rejected, rejected);
    } else {
      var unknown := Doubts(f);
      g := if unknown != [] then GateResult(NeedsEvidence, unknown) else GateResult(Eligible, []);
    }
  }

  lemma {:induction false} RejectingRank(r: Reason)
    ensures Rejecting(r) <==> Rank(r) < 10
    ensures 0 <= Rank(r) < 15
  {
  }

  lemma {:induction false} SomeApplies(f: GateFacts, lo: nat, hi: nat)
    requires lo <= hi <= NO_REASON
    ensures Applicable(f, lo, hi) != [] <==> exists r :: Applies(f, r) && lo <= Rank(r) < hi
  {
    ApplicableReasons(f, lo, hi);
    var a := Applicable(f, lo, hi);
    if a != [] { assert a[0] in a; }
  }

  lemma {:induction false} RejectionApplies(f: GateFacts)
    ensures Applicable(f, 0, FIRST_DOUBT) != [] <==> exists r :: Rejecting(r) && Applies(f, r)
  {
    SomeApplies(f, 0, FIRST_DOUBT);
    if r :| Applies(f, r) && 0 <= Rank(r) < 10 { RejectingRank(r); }
    if r :| Rejecting(r) && Applies(f, r) { RejectingRank(r); }
  }

  lemma {:induction false} NothingApplies(f: GateFacts)
    ensures Applicable(f, 0, FIRST_DOUBT) == [] && Applicable(f, FIRST_DOUBT, NO_REASON) == []
        <==> forall r :: !Applies(f, r)
  {
    SomeApplies(f, 0, FIRST_DOUBT);
    SomeApplies(f, FIRST_DOUBT, NO_REASON);
    if r :| Applies(f, r) { RejectingRank(r); }
  }

  lemma {:induction false} GateOfAnswers(f: GateFacts)
    ensures GateAnswers(f, GateOf(f))
  {
    RejectionApplies(f);
    NothingApplies(f);
    var g := GateOf(f);
    forall r ensures r in g.reasons <==> Applies(f, r) && (g.disposition.Rejected? ==> Rejecting(r)) {
      ApplicableReasons(f, 0, FIRST_DOUBT);
      ApplicableReasons(f, FIRST_DOUBT, NO_REASON);
      RejectingRank(r);
    }
    assert InRankOrder(g.reasons) by {
      ApplicableReasons(f, 0, FIRST_DOUBT);
      ApplicableReasons(f, FIRST_DOUBT, NO_REASON);
    }
  }

  // ---------------------------------------------------------------------------
  // Rounding
  // ---------------------------------------------------------------------------

  /** num / den rounded to the nearest integer, halves to the even one. */
  function RoundHalfEven(num: int, den: int): int
    requires den > 0
  {
    var q, r := num / den, num % den;
    if 2 * r < den then q
    else if 2 * r > den then q + 1
    else if q % 2 == 0 then q
    else q + 1
  }

  lemma {:induction false} MulAtMost(a: int, b: int, den: int)
    requires a <= b && den > 0
    ensures a * den <= b * den
  {
  }

  /** No integer is closer, and of two equally close ones the result is the even one. */
  lemma {:induction false} RoundIsNearest(num: int, den: int, k: int)
    requires den > 0
    ensures var r := RoundHalfEven(num, den);
            && -den <= 2 * (r * den - num) <= den
            && (2 * (r * den - num) == den || 2 * (r * den - num) == -den ==> r % 2 == 0)
            && (k < r ==> num - k * den >= num - r * den + den)
            && (k > r ==> k * den - num >= r * den - num + den)
  {
    var q, m := num / den, num % den;
    assert num == q * den + m;
    assert (q + 1) * den == q * den + den;
    var r := RoundHalfEven(num, den);
    if k < r { MulAtMost(k + 1, r, den); }
    if k > r { MulAtMost(r + 1, k, den); }
  }

  lemma {:induction false} RoundMonotone(a: int, b: int, den: int)
    requires den > 0 && a <= b
    ensures RoundHalfEven(a, den) <= RoundHalfEven(b, den)
  {
    var x, y := RoundHalfEven(a, den), RoundHalfEven(b, den);
    RoundIsNearest(a, den, y);
    RoundIsNearest(b, den, x);
  }

  lemma {:induction false} RoundExact(k: int, den: int)
    requires den > 0
    ensures RoundHalfEven(k * den, den) == k
  {
    RoundIsNearest(k * den, den, k);
  }

  lemma {:induction false} RoundBetween(num: int, den: int, lo: int, hi: int)
    requires den > 0 && lo * den <= num <= hi * den
    ensures lo <= RoundHalfEven(num, den) <= hi
  {
    RoundMonotone(lo * den, num, den);
    RoundMonotone(num, hi * den, den);
    RoundExact(lo, den);
    RoundExact(hi, den);
  }

  // ---------------------------------------------------------------------------
  // One weighted mean
  // ---------------------------------------------------------------------------

  datatype Item = Item(value: Option<int>, weight: nat)

  predicate Weighted(items: seq<Item>) {
    forall i :: 0 <= i < |items| ==> items[i].weight > 0
  }

  function KnownSum(items: seq<Item>): int {
    if items == [] then 0
    else KnownSum(items[1..]) + if items[0].value.Some? then items[0].value.value * items[0].weight else 0
  }

  function KnownWeight(items: seq<Item>): nat {
    if items == [] then 0
    else KnownWeight(items[1..]) + if items[0].value.Some? then items[0].weight else 0
  }

  function TotalWeight(items: seq<Item>): nat {
    if items == [] then 0 else TotalWeight(items[1..]) + items[0].weight
  }

  predicate Known(items: seq<Item>) {
    exists i :: 0 <= i < |items| && items[i].value.Some?
  }

  predicate InRange(items: seq<Item>) {
    forall i :: 0 <= i < |items| && items[i].value.Some? ==> 0 <= items[i].value.value <= 100
  }

  lemma {:induction false} WeightsOrdered(items: seq<Item>)
    requires Weighted(items)
    ensures KnownWeight(items) <= TotalWeight(items)
    ensures Known(items) <==> KnownWeight(items) > 0
  {
    if items != [] {
      WeightsOrdered(items[1..]);
      if Known(items[1..]) {
        var i :| 0 <= i < |items[1..]| && items[1..][i].value.Some?;
        var k := i + 1;
        assert items[k].value.Some?;
      }
      if Known(items) && items[0].value.None? {
        var i :| 0 <= i < |items| && items[i].value.Some?;
        var k := i - 1;
        assert items[1..][k].value.Some?;
      }
    }
  }

  datatype Mean = Mean(score: Option<int>, coverage: int) | SignalOutOfRange

  function WeightedKnown(items: seq<Item>): Mean
    requires Weighted(items)
  {
    if !Known(items) then Mean(None, 0)
    else if !InRange(items) then SignalOutOfRange
    else
      WeightsOrdered(items);
      Mean(Some(RoundHalfEven(KnownSum(items), KnownWeight(items))),
           RoundHalfEven(100 * KnownWeight(items), TotalWeight(items)))
  }

  predicate Bounded(items: seq<Item>, lo: int, hi: int) {
    forall i :: 0 <= i < |items| && items[i].value.Some? ==> lo <= items[i].value.value <= hi
  }

  lemma {:induction false} SumBetween(items: seq<Item>, lo: int, hi: int)
    requires Bounded(items, lo, hi)
    ensures lo * KnownWeight(items) <= KnownSum(items) <= hi * KnownWeight(items)
  {
    if items != [] {
      var rest, w := items[1..], items[0].weight;
      SumBetween(rest, lo, hi);
      if items[0].value.Some? {
        var v := items[0].value.value;
        assert lo * (KnownWeight(rest) + w) == lo * KnownWeight(rest) + lo * w;
        assert hi * (KnownWeight(rest) + w) == hi * KnownWeight(rest) + hi * w;
        if w > 0 {
          MulAtMost(lo, v, w);
          MulAtMost(v, hi, w);
        }
      }
    }
  }

  /** The mean lies between any bounds of the known values, so between the smallest and the largest. */
  lemma {:induction false} MeanBetween(items: seq<Item>, lo: int, hi: int)
    requires Weighted(items) && Bounded(items, lo, hi)
    ensures var m := WeightedKnown(items);
            && (m.Mean? && m.score.Some? ==> lo <= m.score.value <= hi)
            && (m.Mean? ==> 0 <= m.coverage <= 100)
            && (m.Mean? ==> (m.score.Some? <==> Known(items)))
  {
    WeightsOrdered(items);
    SumBetween(items, lo, hi);
    if Known(items) {
      RoundBetween(KnownSum(items), KnownWeight(items), lo, hi);
      RoundBetween(100 * KnownWeight(items), TotalWeight(items), 0, 100);
    }
  }

  /** The same signals are known, and none is higher in the first. */
  predicate NoHigher(a: seq<Item>, b: seq<Item>) {
    && |a| == |b|
    && forall i :: 0 <= i < |a| ==>
         && a[i].weight == b[i].weight && a[i].value.Some? == b[i].value.Some?
         && (a[i].value.Some? ==> a[i].value.value <= b[i].value.value)
  }

  /** Every signal known in the first is known in the second. */
  predicate NoMoreKnown(a: seq<Item>, b: seq<Item>) {
    && |a| == |b|
    && forall i :: 0 <= i < |a| ==> a[i].weight == b[i].weight && (a[i].value.Some? ==> b[i].value.Some?)
  }

  lemma {:induction false} SumMonotone(a: seq<Item>, b: seq<Item>)
    requires NoHigher(a, b)
    ensures KnownWeight(a) == KnownWeight(b) && TotalWeight(a) == TotalWeight(b) && KnownSum(a) <= KnownSum(b)
  {
    if a != [] {
      assert a[0].weight == b[0].weight;
      SumMonotone(a[1..], b[1..]);
      if a[0].value.Some? && a[0].weight > 0 { MulAtMost(a[0].value.value, b[0].value.value, a[0].weight); }
    }
  }

  lemma {:induction false} MeanMonotone(a: seq<Item>, b: seq<Item>)
    requires Weighted(a) && Weighted(b) && NoHigher(a, b)
    requires WeightedKnown(a).Mean? && WeightedKnown(b).Mean?
    ensures var x, y := WeightedKnown(a), WeightedKnown(b);
            && x.coverage == y.coverage && x.score.Some? == y.score.Some?
            && (x.score.Some? ==> x.score.value <= y.score.value)
  {
    SumMonotone(a, b);
    WeightsOrdered(a);
    WeightsOrdered(b);
    if Known(a) { RoundMonotone(KnownSum(a), KnownSum(b), KnownWeight(a)); }
  }

  lemma {:induction false} WeightMonotone(a: seq<Item>, b: seq<Item>)
    requires NoMoreKnown(a, b)
    ensures KnownWeight(a) <= KnownWeight(b) && TotalWeight(a) == TotalWeight(b)
  {
    if a != [] {
      assert a[0].weight == b[0].weight;
      WeightMonotone(a[1..], b[1..]);
    }
  }

  lemma {:induction false} CoverageMonotone(a: seq<Item>, b: seq<Item>)
    requires Weighted(a) && Weighted(b) && NoMoreKnown(a, b)
    requires WeightedKnown(a).Mean? && WeightedKnown(b).Mean?
    ensures WeightedKnown(a).coverage <= WeightedKnown(b).coverage
  {
    WeightMonotone(a, b);
    WeightsOrdered(a);
    WeightsOrdered(b);
    if Known(a) {
      RoundMonotone(100 * KnownWeight(a), 100 * KnownWeight(b), TotalWeight(a));
    } else if Known(b) {
      RoundBetween(100 * KnownWeight(b), TotalWeight(b), 0, 100);
    }
  }

  // ---------------------------------------------------------------------------
  // The score
  // ---------------------------------------------------------------------------

  datatype ScoreInput = ScoreInput(
    productRelevance: Option<int>,
    buyerRole: Option<int>,
    countryMatch: Option<int>,
    companySize: Option<int>,
    industryMatch: Option<int>,
    directPurchase: Option<int>,
    recentActivity: Option<int>,
    competitorSignal: Option<int>,
    signalRecency: Option<int>,
    identityQuality: Option<int>,
    sourceTrust: Option<int>,
    contactability: Option<int>,
    independentEvidence: Option<int>,
    dataRecency: Option<int>)

  datatype Mode = FullV1 | FitQualityProvisionalV1 | EvidenceOnlyProvisionalV1

  datatype Band = BandUnknown | BandC | BandB | BandA | BandS

  datatype ScoreResult = ScoreResult(
    fit: Option<int>,
    intent: Option<int>,
    quality: Option<int>,
    priority: Option<int>,
    band: Band,
    coverage: int,
    mode: Mode)

  datatype Scoring = Scored(result: ScoreResult) | Refused

  function FitItems(v: ScoreInput): (items: seq<Item>)
    ensures Weighted(items) && |items| == 5
  {
    [Item(v.productRelevance, 35), Item(v.buyerRole, 25), Item(v.countryMatch, 20), Item(v.companySize, 10),
        Item(v.industryMatch, 10)]
  }

  function IntentItems(v: ScoreInput): (items: seq<Item>)
    ensures Weighted(items) && |items| == 4
  {
    [Item(v.directPurchase, 40), Item(v.recentActivity, 25), Item(v.competitorSignal, 20), Item(v.signalRecency, 15)]
  }

  function QualityItems(v: ScoreInput): (items: seq<Item>)
    ensures Weighted(items) && |items| == 5
  {
    [Item(v.identityQuality, 25), Item(v.sourceTrust, 25), Item(v.contactability, 20),
        Item(v.independentEvidence, 15), Item(v.dataRecency, 15)]
  }

  function PriorityItems(fit: Option<int>, intent: Option<int>, quality: Option<int>): (items: seq<Item>)
    ensures Weighted(items) && |items| == 3
  {
    [Item(fit, 50), Item(intent, 30), Item(quality, 20)]
  }

  function BandOf(score: Option<int>, coverage: int, mode: Mode): Band {
    if score.None? then BandUnknown
    else if !mode.FullV1? then if score.value >= 55 then BandB else BandC
    else if score.value >= 85 && coverage >= 60 then BandS
    else if score.value >= 70 then BandA
    else if score.value >= 55 then BandB
    else BandC
  }

  function ModeOf(v: ScoreInput, intent: Option<int>): Mode {
    if intent.Some? then FullV1
    else if v.productRelevance.Some? || v.buyerRole.Some? || v.industryMatch.Some? then FitQualityProvisionalV1
    else EvidenceOnlyProvisionalV1
  }

  function ScoreCandidate(v: ScoreInput): Scoring {
    var fit := WeightedKnown(FitItems(v));
    var intent := WeightedKnown(IntentItems(v));
    var quality := WeightedKnown(QualityItems(v));
    if fit.SignalOutOfRange? || intent.SignalOutOfRange? || quality.SignalOutOfRange? then Refused
    else
      var mean := WeightedKnown(PriorityItems(fit.score, intent.score, quality.score));
      if mean.SignalOutOfRange? then Refused
      else
        var coverage := RoundHalfEven(fit.coverage * 50 + intent.coverage * 30 + quality.coverage * 20, 100);
        var mode := ModeOf(v, intent.score);
        var priority := if mode.EvidenceOnlyProvisionalV1? then None else mean.score;
        Scored(ScoreResult(fit.score, intent.score, quality.score, priority, BandOf(priority, coverage, mode),
            coverage, mode))
  }

  predicate AllInRange(v: ScoreInput) {
    InRange(FitItems(v)) && InRange(IntentItems(v)) && InRange(QualityItems(v))
  }

  predicate AllBounded(v: ScoreInput, lo: int, hi: int) {
    Bounded(FitItems(v), lo, hi) && Bounded(IntentItems(v), lo, hi) && Bounded(QualityItems(v), lo, hi)
  }

  /** A candidate is refused a score exactly when a known signal is outside 0..100: the nested mean of the
      dimensions can never refuse. */
  lemma {:induction false} RefusedIff(v: ScoreInput)
    ensures ScoreCandidate(v).Refused? <==> !AllInRange(v)
  {
    if AllInRange(v) {
      var fit, intent, quality := WeightedKnown(FitItems(v)), WeightedKnown(IntentItems(v)),
          WeightedKnown(QualityItems(v));
      MeanBetween(FitItems(v), 0, 100);
      MeanBetween(IntentItems(v), 0, 100);
      MeanBetween(QualityItems(v), 0, 100);
      var items := PriorityItems(fit.score, intent.score, quality.score);
      assert InRange(items);
    }
  }

  predicate Within(score: Option<int>, lo: int, hi: int) {
    score.Some? ==> lo <= score.value <= hi
  }

  /** Through both levels of rounding every score stays within any bounds of the known signals, and the coverage
      within 0..100. */
  lemma {:induction false} ScoresBetweenSignals(v: ScoreInput, lo: int, hi: int)
    requires AllInRange(v) && AllBounded(v, lo, hi)
    ensures ScoreCandidate(v).Scored?
    ensures var r := ScoreCandidate(v).result;
            && Within(r.fit, lo, hi) && Within(r.intent, lo, hi) && Within(r.quality, lo, hi)
                && Within(r.priority, lo, hi)
            && 0 <= r.coverage <= 100
  {
    RefusedIff(v);
    MeanBetween(FitItems(v), lo, hi);
    MeanBetween(IntentItems(v), lo, hi);
    MeanBetween(QualityItems(v), lo, hi);
    var fit, intent, quality := WeightedKnown(FitItems(v)), WeightedKnown(IntentItems(v)),
        WeightedKnown(QualityItems(v));
    var items := PriorityItems(fit.score, intent.score, quality.score);
    assert Bounded(items, lo, hi);
    MeanBetween(items, lo, hi);
    RoundBetween(fit.coverage * 50 + intent.coverage * 30 + quality.coverage * 20, 100, 0, 100);
  }

  function BandRank(b: Band): nat {
    match b case BandUnknown => 0 case BandC => 1 case BandB => 2 case BandA => 3 case BandS => 4
  }

  predicate OptionLe(a: Option<int>, b: Option<int>) {
    a.Some? == b.Some? && (a.Some? ==> a.value <= b.value)
  }

  predicate SignalsNoHigher(a: ScoreInput, b: ScoreInput) {
    NoHigher(FitItems(a), FitItems(b)) && NoHigher(IntentItems(a), IntentItems(b))
        && NoHigher(QualityItems(a), QualityItems(b))
  }

  lemma {:induction false} SameMode(a: ScoreInput, b: ScoreInput, x: Option<int>, y: Option<int>)
    requires NoHigher(FitItems(a), FitItems(b)) && x.Some? == y.Some?
    ensures ModeOf(a, x) == ModeOf(b, y)
  {
    assert FitItems(a)[0].value.Some? == FitItems(b)[0].value.Some?;
    assert FitItems(a)[1].value.Some? == FitItems(b)[1].value.Some?;
    assert FitItems(a)[4].value.Some? == FitItems(b)[4].value.Some?;
  }

  lemma {:induction false} BandMonotone(x: Option<int>, y: Option<int>, coverage: int, mode: Mode)
    requires OptionLe(x, y)
    ensures BandRank(BandOf(x, coverage, mode)) <= BandRank(BandOf(y, coverage, mode))
  {
  }

  /** With the known set fixed, raising signals never lowers a score, the priority or the band. */
  lemma {:induction false} PriorityMonotone(a: ScoreInput, b: ScoreInput)
    requires SignalsNoHigher(a, b) && AllInRange(a) && AllInRange(b)
    ensures ScoreCandidate(a).Scored? && ScoreCandidate(b).Scored?
    ensures var x, y := ScoreCandidate(a).result, ScoreCandidate(b).result;
            && OptionLe(x.fit, y.fit) && OptionLe(x.intent, y.intent) && OptionLe(x.quality, y.quality)
            && OptionLe(x.priority, y.priority)
            && x.coverage == y.coverage && x.mode == y.mode
            && BandRank(x.band) <= BandRank(y.band)
  {
    RefusedIff(a);
    RefusedIff(b);
    MeanMonotone(FitItems(a), FitItems(b));
    MeanMonotone(IntentItems(a), IntentItems(b));
    MeanMonotone(QualityItems(a), QualityItems(b));
    var x, y := ScoreCandidate(a).result, ScoreCandidate(b).result;
    MeanMonotone(PriorityItems(x.fit, x.intent, x.quality), PriorityItems(y.fit, y.intent, y.quality));
    SameMode(a, b, x.intent, y.intent);
    BandMonotone(x.priority, y.priority, x.coverage, x.mode);
  }

  predicate SignalsNoMoreKnown(a: ScoreInput, b: ScoreInput) {
    NoMoreKnown(FitItems(a), FitItems(b)) && NoMoreKnown(IntentItems(a), IntentItems(b))
        && NoMoreKnown(QualityItems(a), QualityItems(b))
  }

  /** Learning signals never lowers the coverage, whatever their values and whatever else changes. */
  lemma {:induction false} CoverageGrows(a: ScoreInput, b: ScoreInput)
    requires SignalsNoMoreKnown(a, b) && AllInRange(a) && AllInRange(b)
    ensures ScoreCandidate(a).Scored? && ScoreCandidate(b).Scored?
    ensures ScoreCandidate(a).result.coverage <= ScoreCandidate(b).result.coverage
  {
    RefusedIff(a);
    RefusedIff(b);
    CoverageMonotone(FitItems(a), FitItems(b));
    CoverageMonotone(IntentItems(a), IntentItems(b));
    CoverageMonotone(QualityItems(a), QualityItems(b));
    var f, i, q := WeightedKnown(FitItems(a)).coverage, WeightedKnown(IntentItems(a)).coverage,
        WeightedKnown(QualityItems(a)).coverage;
    var f', i', q' := WeightedKnown(FitItems(b)).coverage, WeightedKnown(IntentItems(b)).coverage,
        WeightedKnown(QualityItems(b)).coverage;
    RoundMonotone(f * 50 + i * 30 + q * 20, f' * 50 + i' * 30 + q' * 20, 100);
  }

  /** A priority is shown exactly when an intent signal or one of product relevance, buyer role and industry match
      is known: the country and the quality of the evidence give none by themselves. Bands S and A need an intent
      signal, and S also a coverage of 60. */
  lemma {:induction false} PriorityNeedsRelevance(v: ScoreInput)
    requires AllInRange(v)
    ensures ScoreCandidate(v).Scored?
    ensures var r := ScoreCandidate(v).result;
            && (r.priority.Some? <==>
                Known(IntentItems(v)) || v.productRelevance.Some? || v.buyerRole.Some? || v.industryMatch.Some?)
            && (r.band.BandUnknown? <==> r.priority.None?)
            && (r.band.BandS? || r.band.BandA? ==> Known(IntentItems(v)) && r.priority.value >= 70)
            && (r.band.BandS? <==> Known(IntentItems(v)) && r.priority.value >= 85 && r.coverage >= 60)
            && (r.band.BandC? <==> r.priority.Some? && r.priority.value < 55)
  {
    RefusedIff(v);
    MeanBetween(FitItems(v), 0, 100);
    MeanBetween(IntentItems(v), 0, 100);
    MeanBetween(QualityItems(v), 0, 100);
    var r := ScoreCandidate(v).result;
    var items := PriorityItems(r.fit, r.intent, r.quality);
    if v.productRelevance.Some? { assert FitItems(v)[0].value.Some?; }
    if v.buyerRole.Some? { assert FitItems(v)[1].value.Some?; }
    if v.industryMatch.Some? { assert FitItems(v)[4].value.Some?; }
    if r.fit.Some? { assert items[0].value.Some?; }
    if r.intent.Some? { assert items[1].value.Some?; }
  }

  // ---------------------------------------------------------------------------
  // The exact means
  // ---------------------------------------------------------------------------

  /** The score of a dimension is off its exact weighted mean by at most half a point. */
  lemma {:induction false} MeanIsNearest(items: seq<Item>)
    requires Weighted(items) && Known(items) && InRange(items)
    ensures WeightedKnown(items).Mean? && WeightedKnown(items).score.Some?
    ensures var score, weight: int := WeightedKnown(items).score.value, KnownWeight(items);
            -weight <= 2 * (score * weight - KnownSum(items)) <= weight
  {
    WeightsOrdered(items);
    RoundIsNearest(KnownSum(items), KnownWeight(items), 0);
  }

  predicate AllKnown(v: ScoreInput) {
    && v.productRelevance.Some? && v.buyerRole.Some? && v.countryMatch.Some? && v.companySize.Some?
        && v.industryMatch.Some?
    && v.directPurchase.Some? && v.recentActivity.Some? && v.competitorSignal.Some? && v.signalRecency.Some?
    && v.identityQuality.Some? && v.sourceTrust.Some? && v.contactability.Some? && v.independentEvidence.Some?
        && v.dataRecency.Some?
  }

  /** Hundred times the exact means of the three dimensions, all signals known. */
  function HundredFit(v: ScoreInput): int
    requires AllKnown(v)
  {
    35 * v.productRelevance.value + 25 * v.buyerRole.value + 20 * v.countryMatch.value + 10 * v.companySize.value
    + 10 * v.industryMatch.value
  }

  function HundredIntent(v: ScoreInput): int
    requires AllKnown(v)
  {
    40 * v.directPurchase.value + 25 * v.recentActivity.value + 20 * v.competitorSignal.value
        + 15 * v.signalRecency.value
  }

  function HundredQuality(v: ScoreInput): int
    requires AllKnown(v)
  {
    25 * v.identityQuality.value + 25 * v.sourceTrust.value + 20 * v.contactability.value
        + 15 * v.independentEvidence.value
    + 15 * v.dataRecency.value
  }

  predicate NearHundredth(score: Option<int>, hundredfold: int) {
    score.Some? && -50 <= 100 * score.value - hundredfold <= 50
  }

  function KnownPart(item: Item): nat {
    if item.value.Some? then item.weight else 0
  }

  function Part(item: Item): int {
    if item.value.Some? then item.value.value * item.weight else 0
  }

  lemma {:induction false} SumHead(items: seq<Item>)
    requires items != []
    ensures KnownSum(items) == Part(items[0]) + KnownSum(items[1..])
    ensures KnownWeight(items) == KnownPart(items[0]) + KnownWeight(items[1..])
    ensures TotalWeight(items) == items[0].weight + TotalWeight(items[1..])
  {
  }

  lemma {:induction false} SumOfFive(items: seq<Item>)
    requires |items| == 5
    ensures KnownSum(items) == Part(items[0]) + Part(items[1]) + Part(items[2]) + Part(items[3]) + Part(items[4])
    ensures KnownWeight(items) == KnownPart(items[0]) + KnownPart(items[1]) + KnownPart(items[2])
        + KnownPart(items[3]) + KnownPart(items[4])
    ensures TotalWeight(items) == items[0].weight + items[1].weight + items[2].weight + items[3].weight
        + items[4].weight
  {
    var a, b, c, d := items[1..], items[2..], items[3..], items[4..];
    assert a[1..] == b && b[1..] == c && c[1..] == d && d[1..] == [];
    SumHead(items);
    SumHead(a);
    SumHead(b);
    SumHead(c);
    SumHead(d);
  }

  lemma {:induction false} KnownFit(v: ScoreInput)
    requires AllKnown(v) && AllInRange(v)
    ensures var m := WeightedKnown(FitItems(v)); m.Mean? && m.coverage == 100 && NearHundredth(m.score, HundredFit(v))
  {
    assert FitItems(v)[0].value.Some?;
    SumOfFive(FitItems(v));
    MeanIsNearest(FitItems(v));
    RoundExact(100, 100);
  }

  lemma {:induction false} SumOfFour(items: seq<Item>)
    requires |items| == 4
    ensures KnownSum(items) == Part(items[0]) + Part(items[1]) + Part(items[2]) + Part(items[3])
    ensures KnownWeight(items) == KnownPart(items[0]) + KnownPart(items[1]) + KnownPart(items[2]) + KnownPart(items[3])
    ensures TotalWeight(items) == items[0].weight + items[1].weight + items[2].weight + items[3].weight
  {
    var a, b, c := items[1..], items[2..], items[3..];
    assert a[1..] == b && b[1..] == c && c[1..] == [];
    SumHead(items);
    SumHead(a);
    SumHead(b);
    SumHead(c);
  }

  lemma {:induction false} KnownIntent(v: ScoreInput)
    requires AllKnown(v) && AllInRange(v)
    ensures var m := WeightedKnown(IntentItems(v));
            m.Mean? && m.coverage == 100 && NearHundredth(m.score, HundredIntent(v))
  {
    assert IntentItems(v)[0].value.Some?;
    SumOfFour(IntentItems(v));
    MeanIsNearest(IntentItems(v));
    RoundExact(100, 100);
  }

  lemma {:induction false} KnownQuality(v: ScoreInput)
    requires AllKnown(v) && AllInRange(v)
    ensures var m := WeightedKnown(QualityItems(v));
            m.Mean? && m.coverage == 100 && NearHundredth(m.score, HundredQuality(v))
  {
    assert QualityItems(v)[0].value.Some?;
    SumOfFive(QualityItems(v));
    MeanIsNearest(QualityItems(v));
    RoundExact(100, 100);
  }

  lemma {:induction false} SumOfThree(fit: Option<int>, intent: Option<int>, quality: Option<int>)
    ensures var items := PriorityItems(fit, intent, quality);
            && KnownSum(items) == Part(Item(fit, 50)) + Part(Item(intent, 30)) + Part(Item(quality, 20))
            && KnownWeight(items) == KnownPart(Item(fit, 50)) + KnownPart(Item(intent, 30))
                + KnownPart(Item(quality, 20))
            && TotalWeight(items) == 100
  {
    var items := PriorityItems(fit, intent, quality);
    var a, b := items[1..], items[2..];
    assert a[1..] == b && b[1..] == [];
    SumHead(items);
    SumHead(a);
    SumHead(b);
  }

  /** With every signal known the coverage is 100, and the priority, rounded twice, is off the exact weighted mean
      of all fourteen signals by at most one point. */
  lemma {:induction false} PriorityWithinOnePoint(v: ScoreInput)
    requires AllKnown(v) && AllInRange(v)
    ensures ScoreCandidate(v).Scored?
    ensures var r := ScoreCandidate(v).result;
            && r.coverage == 100 && r.mode.FullV1? && r.priority.Some?
            && NearHundredth(r.fit, HundredFit(v)) && NearHundredth(r.intent, HundredIntent(v))
                && NearHundredth(r.quality, HundredQuality(v))
            && var exact := 50 * HundredFit(v) + 30 * HundredIntent(v) + 20 * HundredQuality(v);
               -10000 <= 10000 * r.priority.value - exact <= 10000
  {
    RefusedIff(v);
    KnownFit(v);
    KnownIntent(v);
    KnownQuality(v);
    var r := ScoreCandidate(v).result;
    SumOfThree(r.fit, r.intent, r.quality);
    var items := PriorityItems(r.fit, r.intent, r.quality);
    assert items[0].value.Some?;
    assert InRange(items);
    MeanIsNearest(items);
    RoundExact(100, 100);
  }

  const NO_SIGNALS := ScoreInput(None, None, None, None, None, None, None, None, None, None, None, None, None, None)

  // ---------------------------------------------------------------------------
  // Learning signals
  // ---------------------------------------------------------------------------

  /** The second has every value of the first, and perhaps more. */
  predicate Learns(a: seq<Item>, b: seq<Item>) {
    && |a| == |b|
    && forall i :: 0 <= i < |a| ==> a[i].weight == b[i].weight && (a[i].value.Some? ==> b[i].value == a[i].value)
  }

  function LearnedSum(a: seq<Item>, b: seq<Item>): int
    requires |a| == |b|
  {
    if a == [] then 0 else LearnedSum(a[1..], b[1..]) + if a[0].value.None? then Part(b[0]) else 0
  }

  function LearnedWeight(a: seq<Item>, b: seq<Item>): nat
    requires |a| == |b|
  {
    if a == [] then 0 else LearnedWeight(a[1..], b[1..]) + if a[0].value.None? then KnownPart(b[0]) else 0
  }

  /** Every learned value lies between the bounds. */
  predicate LearnedWithin(a: seq<Item>, b: seq<Item>, lo: int, hi: int)
    requires |a| == |b|
  {
    forall i :: 0 <= i < |a| && a[i].value.None? && b[i].value.Some? ==> lo <= b[i].value.value <= hi
  }

  lemma {:induction false} LearnedSplit(a: seq<Item>, b: seq<Item>)
    requires Learns(a, b)
    ensures KnownSum(b) == KnownSum(a) + LearnedSum(a, b)
    ensures KnownWeight(b) == KnownWeight(a) + LearnedWeight(a, b)
  {
    if a != [] {
      assert a[0].weight == b[0].weight;
      LearnedSplit(a[1..], b[1..]);
    }
  }

  lemma {:induction false} WeightedBetween(lo: int, value: int, hi: int, weight: nat)
    requires lo <= value <= hi
    ensures lo * weight <= value * weight <= hi * weight
  {
    if weight > 0 {
      MulAtMost(lo, value, weight);
      MulAtMost(value, hi, weight);
    }
  }

  lemma {:induction false} Distributes(x: int, y: int, z: int)
    ensures x * (y + z) == x * y + x * z
  {
  }

  lemma {:induction false} LearnedBetween(a: seq<Item>, b: seq<Item>, lo: int, hi: int)
    requires |a| == |b| && LearnedWithin(a, b, lo, hi)
    ensures lo * LearnedWeight(a, b) <= LearnedSum(a, b) <= hi * LearnedWeight(a, b)
  {
    if a != [] {
      LearnedBetween(a[1..], b[1..], lo, hi);
      if a[0].value.None? && b[0].value.Some? {
        WeightedBetween(lo, b[0].value.value, hi, b[0].weight);
        Distributes(lo, LearnedWeight(a[1..], b[1..]), b[0].weight);
        Distributes(hi, LearnedWeight(a[1..], b[1..]), b[0].weight);
      }
    }
  }

  lemma {:induction false} CrossFalls(n: int, w: int, x: int, y: int)
    ensures (n + x) * w < n * (w + y) <==> x * w < n * y
  {
    assert (n + x) * w == n * w + x * w;
    assert n * (w + y) == n * w + n * y;
  }

  /** The exact mean falls exactly if the exact mean of what was learned is below it. */
  lemma {:induction false} ExactMeanFallsIff(a: seq<Item>, b: seq<Item>)
    requires Learns(a, b)
    ensures KnownSum(b) * KnownWeight(a) < KnownSum(a) * KnownWeight(b) <==>
            LearnedSum(a, b) * KnownWeight(a) < KnownSum(a) * LearnedWeight(a, b)
  {
    LearnedSplit(a, b);
    CrossFalls(KnownSum(a), KnownWeight(a), LearnedSum(a, b), LearnedWeight(a, b));
  }

  function Learned(a: seq<Item>, k: nat, value: int): seq<Item>
    requires k < |a|
  {
    a[k := Item(Some(value), a[k].weight)]
  }

  lemma {:induction false} NothingLearned(a: seq<Item>)
    ensures LearnedSum(a, a) == 0 && LearnedWeight(a, a) == 0
  {
    if a != [] { NothingLearned(a[1..]); }
  }

  lemma {:induction false} OneLearned(a: seq<Item>, k: nat, value: int)
    requires k < |a| && a[k].value.None?
    ensures Learns(a, Learned(a, k, value))
    ensures LearnedSum(a, Learned(a, k, value)) == value * a[k].weight
    ensures LearnedWeight(a, Learned(a, k, value)) == a[k].weight
  {
    var b := Learned(a, k, value);
    if k == 0 {
      assert b[1..] == a[1..];
      NothingLearned(a[1..]);
    } else {
      OneLearned(a[1..], k - 1, value);
      assert b[1..] == Learned(a[1..], k - 1, value);
    }
  }

  lemma {:induction false} ScaledLess(x: int, y: int, u: nat)
    requires u > 0
    ensures x * u < y * u <==> x < y
  {
    if x < y { MulAtMost(x + 1, y, u); } else { MulAtMost(y, x, u); }
  }

  /** Learning one value lowers the exact mean exactly if the value is below it. */
  lemma {:induction false} OneValueLowersIff(a: seq<Item>, k: nat, value: int)
    requires k < |a| && Weighted(a) && a[k].value.None?
    ensures var b := Learned(a, k, value);
            KnownSum(b) * KnownWeight(a) < KnownSum(a) * KnownWeight(b) <==> value * KnownWeight(a) < KnownSum(a)
  {
    var n, w, u := KnownSum(a), KnownWeight(a), a[k].weight;
    OneLearned(a, k, value);
    ExactMeanFallsIff(a, Learned(a, k, value));
    assert (value * u) * w == (value * w) * u;
    ScaledLess(value * w, n, u);
  }

  /** Adding as much weight at the rounded mean leaves the rounded mean where it is. */
  lemma {:induction false} RoundIsStable(num: int, den: int, extra: nat, mean: int, more: int)
    requires den > 0 && mean == RoundHalfEven(num, den) && more == mean * extra
    ensures RoundHalfEven(num + more, den + extra) == mean
  {
    assert mean * (den + extra) == mean * den + more;
    RoundIsNearest(num, den, mean);
    RoundIsNearest(num + more, den + extra, mean);
  }

  lemma {:induction false} LearnedKnown(a: seq<Item>, b: seq<Item>)
    requires Weighted(a) && Weighted(b) && Learns(a, b) && Known(a)
    ensures Known(b) && KnownWeight(a) > 0 && KnownWeight(b) > 0
  {
    var i :| 0 <= i < |a| && a[i].value.Some?;
    assert b[i].value.Some?;
    WeightsOrdered(a);
    WeightsOrdered(b);
  }

  lemma {:induction false} RoundMoves(n: int, w: int, m: int, u: nat, x: int, t: int)
    requires w > 0 && x == RoundHalfEven(n, w) && t == x * u
    ensures t <= m ==> x <= RoundHalfEven(n + m, w + u)
    ensures m <= t ==> RoundHalfEven(n + m, w + u) <= x
  {
    RoundIsStable(n, w, u, x, t);
    if t <= m { RoundMonotone(n + t, n + m, w + u); }
    if m <= t { RoundMonotone(n + m, n + t, w + u); }
  }

  /** Learning values none of which is below the score of a dimension never lowers that score, and values none of
      which is above it never raise it. */
  lemma {:induction false} LearningKeepsScore(a: seq<Item>, b: seq<Item>)
    requires Weighted(a) && Weighted(b) && Learns(a, b) && Known(a) && InRange(a) && InRange(b)
    ensures Known(b) && WeightedKnown(a).Mean? && WeightedKnown(b).Mean?
    ensures WeightedKnown(a).score.Some? && WeightedKnown(b).score.Some?
    ensures var x, y := WeightedKnown(a).score.value, WeightedKnown(b).score.value;
            && (LearnedWithin(a, b, x, 100) ==> x <= y)
            && (LearnedWithin(a, b, 0, x) ==> y <= x)
  {
    LearnedKnown(a, b);
    LearnedSplit(a, b);
    var x := WeightedKnown(a).score.value;
    RoundMoves(KnownSum(a), KnownWeight(a), LearnedSum(a, b), LearnedWeight(a, b), x, x * LearnedWeight(a, b));
    if LearnedWithin(a, b, x, 100) { LearnedBetween(a, b, x, 100); }
    if LearnedWithin(a, b, 0, x) { LearnedBetween(a, b, 0, x); }
  }

  /** The quotient is below the point from which rounding gives k: half a point under it, or exactly there when the
      tie goes down. */
  predicate RoundsBelow(num: int, den: int, k: int) {
    2 * num < (2 * k - 1) * den || (2 * num == (2 * k - 1) * den && k % 2 == 1)
  }

  /** With the products of a divisor named x and y: r rounds a number below the rounding point of k if r < k. */
  lemma {:induction false} BelowOf(num: int, den: int, k: int, r: int, x: int, y: int)
    requires den > 0 && -den <= 2 * (x - num) <= den
    requires 2 * (x - num) == -den || 2 * (x - num) == den ==> r % 2 == 0
    requires if r < k then x <= y - den && (x == y - den ==> r == k - 1) else x >= y && (x == y ==> r == k)
    ensures r < k <==> 2 * num < 2 * y - den || (2 * num == 2 * y - den && k % 2 == 1)
  {
  }

  lemma {:induction false} ProductsOrdered(r: int, k: int, den: int)
    requires den > 0
    ensures if r < k then r * den <= k * den - den && (r * den == k * den - den ==> r == k - 1)
            else r * den >= k * den && (r * den == k * den ==> r == k)
  {
    if r < k {
      MulAtMost(r + 1, k, den);
      assert (r + 1) * den == r * den + den;
      if r + 1 < k {
        MulAtMost(r + 2, k, den);
        assert (r + 2) * den == r * den + 2 * den;
      }
    } else {
      MulAtMost(k, r, den);
      if k < r {
        MulAtMost(k + 1, r, den);
        assert (k + 1) * den == k * den + den;
      }
    }
  }

  lemma {:induction false} RoundBelowIff(num: int, den: int, k: int)
    requires den > 0
    ensures RoundHalfEven(num, den) < k <==> RoundsBelow(num, den, k)
  {
    var r := RoundHalfEven(num, den);
    RoundIsNearest(num, den, r);
    ProductsOrdered(r, k, den);
    assert (2 * k - 1) * den == 2 * (k * den) - den;
    BelowOf(num, den, k, r, r * den, k * den);
  }

  /** The rounded score of a dimension falls exactly if what is learned pulls its quotient below the rounding point of
      the old score. */
  lemma {:induction false} ScoreFallsIff(a: seq<Item>, b: seq<Item>)
    requires Weighted(a) && Weighted(b) && Learns(a, b) && Known(a) && InRange(a) && InRange(b)
    ensures WeightedKnown(a).Mean? && WeightedKnown(a).score.Some?
    ensures WeightedKnown(b).Mean? && WeightedKnown(b).score.Some?
    ensures var x, y := WeightedKnown(a).score.value, WeightedKnown(b).score.value;
            y < x <==> RoundsBelow(KnownSum(a) + LearnedSum(a, b), KnownWeight(a) + LearnedWeight(a, b), x)
  {
    LearnedKnown(a, b);
    LearnedSplit(a, b);
    RoundBelowIff(KnownSum(b), KnownWeight(b), WeightedKnown(a).score.value);
  }

  function Dimensions(r: ScoreResult): seq<Item> {
    PriorityItems(r.fit, r.intent, r.quality)
  }

  /** A shown priority is the mean of the known dimensions. */
  ghost predicate IsMean(r: ScoreResult) {
    && Known(Dimensions(r)) && InRange(Dimensions(r)) && r.priority.Some?
    && WeightedKnown(Dimensions(r)).Mean? && WeightedKnown(Dimensions(r)).score == r.priority
  }

  lemma {:induction false} PriorityIsMean(v: ScoreInput)
    requires ScoreCandidate(v).Scored? && ScoreCandidate(v).result.priority.Some?
    ensures IsMean(ScoreCandidate(v).result)
  {
    RefusedIff(v);
    MeanBetween(FitItems(v), 0, 100);
    MeanBetween(IntentItems(v), 0, 100);
    MeanBetween(QualityItems(v), 0, 100);
  }

  lemma {:induction false} MeanFallsIff(r: ScoreResult, r': ScoreResult)
    requires IsMean(r) && IsMean(r')
    ensures r'.priority.value < r.priority.value <==>
            RoundsBelow(KnownSum(Dimensions(r')), KnownWeight(Dimensions(r')), r.priority.value)
  {
    WeightsOrdered(Dimensions(r'));
    RoundBelowIff(KnownSum(Dimensions(r')), KnownWeight(Dimensions(r')), r.priority.value);
  }

  /** So for the candidate, whatever signals become known or change: its priority falls exactly if the new scores of
      the dimensions have a mean below the rounding point of the old priority. */
  lemma {:induction false} PriorityFallsIff(a: ScoreInput, b: ScoreInput)
    requires ScoreCandidate(a).Scored? && ScoreCandidate(a).result.priority.Some?
    requires ScoreCandidate(b).Scored? && ScoreCandidate(b).result.priority.Some?
    ensures var p, after := ScoreCandidate(a).result.priority.value, Dimensions(ScoreCandidate(b).result);
            ScoreCandidate(b).result.priority.value < p <==> RoundsBelow(KnownSum(after), KnownWeight(after), p)
  {
    PriorityIsMean(a);
    PriorityIsMean(b);
    MeanFallsIff(ScoreCandidate(a).result, ScoreCandidate(b).result);
  }

  lemma {:induction false} LearnedSums(dimensions: seq<Item>, k: nat, score: int)
    requires k < |dimensions| && dimensions[k].value.None?
    ensures KnownSum(Learned(dimensions, k, score)) == KnownSum(dimensions) + score * dimensions[k].weight
    ensures KnownWeight(Learned(dimensions, k, score)) == KnownWeight(dimensions) + dimensions[k].weight
  {
    OneLearned(dimensions, k, score);
    LearnedSplit(dimensions, Learned(dimensions, k, score));
  }

  /** In particular, when dimension k becomes known with a score and the other two keep theirs. */
  lemma {:induction false} NewDimensionFallsIff(a: ScoreInput, b: ScoreInput, k: nat, score: int)
    requires ScoreCandidate(a).Scored? && ScoreCandidate(a).result.priority.Some?
    requires ScoreCandidate(b).Scored? && ScoreCandidate(b).result.priority.Some?
    requires var before, after := Dimensions(ScoreCandidate(a).result), Dimensions(ScoreCandidate(b).result);
             k < 3 && before[k].value.None? && after == Learned(before, k, score)
    ensures var p, before := ScoreCandidate(a).result.priority.value, Dimensions(ScoreCandidate(a).result);
            ScoreCandidate(b).result.priority.value < p <==>
            RoundsBelow(KnownSum(before) + score * before[k].weight, KnownWeight(before) + before[k].weight, p)
  {
    PriorityFallsIff(a, b);
    LearnedSums(Dimensions(ScoreCandidate(a).result), k, score);
  }

  /** What a dimension may learn without lowering its score; a dimension that becomes known as a whole must not score
      below the priority. */
  predicate LearnsWell(a: seq<Item>, b: seq<Item>, priority: int)
    requires Weighted(a) && Weighted(b)
  {
    && Learns(a, b) && WeightedKnown(a).Mean? && WeightedKnown(b).Mean?
    && (WeightedKnown(a).score.Some? ==> LearnedWithin(a, b, WeightedKnown(a).score.value, 100))
    && (WeightedKnown(a).score.None? && WeightedKnown(b).score.Some? ==> WeightedKnown(b).score.value >= priority)
  }

  lemma {:induction false} DimensionLearnsWell(a: seq<Item>, b: seq<Item>, priority: int)
    requires Weighted(a) && Weighted(b) && InRange(a) && InRange(b) && LearnsWell(a, b, priority)
    ensures WeightedKnown(a).score.Some? ==>
              WeightedKnown(b).score.Some? && WeightedKnown(a).score.value <= WeightedKnown(b).score.value
    ensures WeightedKnown(b).score.Some? ==> 0 <= WeightedKnown(b).score.value <= 100
  {
    MeanBetween(b, 0, 100);
    if Known(a) { LearningKeepsScore(a, b); }
  }

  function Older(before: Option<int>, after: Option<int>): Option<int> {
    if before.Some? then before else after
  }

  predicate Grew(before: Option<int>, after: Option<int>, priority: int) {
    && (before.Some? ==> after.Some? && before.value <= after.value)
    && (before.None? && after.Some? ==> after.value >= priority)
    && Within(before, 0, 100) && Within(after, 0, 100)
  }

  lemma {:induction false} OlderInRange(f: Option<int>, i: Option<int>, q: Option<int>)
    requires Within(f, 0, 100) && Within(i, 0, 100) && Within(q, 0, 100)
    ensures InRange(PriorityItems(f, i, q))
  {
  }

  lemma {:induction false} OlderLearns(f: Option<int>, i: Option<int>, q: Option<int>, f': Option<int>,
      i': Option<int>, q': Option<int>, priority: int)
    requires Grew(f, f', priority) && Grew(i, i', priority) && Grew(q, q', priority)
    ensures var a, c := PriorityItems(f, i, q), PriorityItems(Older(f, f'), Older(i, i'), Older(q, q'));
            Learns(a, c) && LearnedWithin(a, c, priority, 100)
  {
  }

  lemma {:induction false} OlderNoHigher(f: Option<int>, i: Option<int>, q: Option<int>, f': Option<int>,
      i': Option<int>, q': Option<int>, priority: int)
    requires Grew(f, f', priority) && Grew(i, i', priority) && Grew(q, q', priority)
    ensures NoHigher(PriorityItems(Older(f, f'), Older(i, i'), Older(q, q')), PriorityItems(f', i', q'))
  {
  }

  lemma {:induction false} GrownMean(a: seq<Item>, c: seq<Item>, b: seq<Item>, score: int)
    requires Weighted(a) && Weighted(b) && Weighted(c) && InRange(a) && InRange(b) && InRange(c)
    requires Learns(a, c) && NoHigher(c, b) && LearnedWithin(a, c, score, 100)
    requires WeightedKnown(a).Mean? && WeightedKnown(a).score == Some(score)
    ensures WeightedKnown(b).Mean? && WeightedKnown(b).score.Some? && WeightedKnown(b).score.value >= score
  {
    LearningKeepsScore(a, c);
    MeanMonotone(c, b);
  }

  lemma {:induction false} PriorityOfGrown(f: Option<int>, i: Option<int>, q: Option<int>, f': Option<int>,
      i': Option<int>, q': Option<int>, priority: int)
    requires Grew(f, f', priority) && Grew(i, i', priority) && Grew(q, q', priority)
    requires WeightedKnown(PriorityItems(f, i, q)).Mean?
        && WeightedKnown(PriorityItems(f, i, q)).score == Some(priority)
    ensures WeightedKnown(PriorityItems(f', i', q')).Mean?
    ensures WeightedKnown(PriorityItems(f', i', q')).score.Some?
        && WeightedKnown(PriorityItems(f', i', q')).score.value >= priority
  {
    OlderInRange(f, i, q);
    OlderInRange(f', i', q');
    OlderInRange(Older(f, f'), Older(i, i'), Older(q, q'));
    OlderLearns(f, i, q, f', i', q', priority);
    OlderNoHigher(f, i, q, f', i', q', priority);
    GrownMean(PriorityItems(f, i, q), PriorityItems(Older(f, f'), Older(i, i'), Older(q, q')),
        PriorityItems(f', i', q'), priority);
  }

  lemma {:induction false} StillShown(a: ScoreInput, b: ScoreInput, x: Option<int>, y: Option<int>)
    requires Learns(FitItems(a), FitItems(b)) && (x.Some? ==> y.Some?)
    ensures ModeOf(b, y).EvidenceOnlyProvisionalV1? ==> ModeOf(a, x).EvidenceOnlyProvisionalV1?
  {
    assert FitItems(a)[0].value.Some? ==> FitItems(b)[0].value.Some?;
    assert FitItems(a)[1].value.Some? ==> FitItems(b)[1].value.Some?;
    assert FitItems(a)[4].value.Some? ==> FitItems(b)[4].value.Some?;
  }

  /** Learning signals lowers no priority if no learned signal is below the score of its dimension, and no dimension
      that becomes known as a whole scores below the priority. */
  lemma {:induction false} LearningKeepsPriority(a: ScoreInput, b: ScoreInput)
    requires AllInRange(a) && AllInRange(b)
    requires ScoreCandidate(a).Scored? && ScoreCandidate(a).result.priority.Some?
    requires var p := ScoreCandidate(a).result.priority.value;
             && LearnsWell(FitItems(a), FitItems(b), p) && LearnsWell(IntentItems(a), IntentItems(b), p)
             && LearnsWell(QualityItems(a), QualityItems(b), p)
    ensures ScoreCandidate(b).Scored? && ScoreCandidate(b).result.priority.Some?
    ensures ScoreCandidate(a).result.priority.value <= ScoreCandidate(b).result.priority.value
  {
    var p := ScoreCandidate(a).result.priority.value;
    RefusedIff(b);
    DimensionLearnsWell(FitItems(a), FitItems(b), p);
    DimensionLearnsWell(IntentItems(a), IntentItems(b), p);
    DimensionLearnsWell(QualityItems(a), QualityItems(b), p);
    MeanBetween(FitItems(a), 0, 100);
    MeanBetween(IntentItems(a), 0, 100);
    MeanBetween(QualityItems(a), 0, 100);
    var x, y := ScoreCandidate(a).result, ScoreCandidate(b).result;
    PriorityOfGrown(x.fit, x.intent, x.quality, y.fit, y.intent, y.quality, p);
    StillShown(a, b, x.intent, y.intent);
  }
}
