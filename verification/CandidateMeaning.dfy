/** What every writer leaves in the row of a candidate, in terms of the stored fields. */
module CandidateMeaning {
  import opened Common
  import opened AcquisitionRows
  import opened CandidateEvidence
  import opened AssessmentRows
  import opened CandidateRows
  import opened CandidateLifecycle
  import CandidateScoring
  import CandidateAssessment

  // ---------------------------------------------------------------------------
  // Evidence
  // ---------------------------------------------------------------------------

  predicate HasContent(rows: seq<EvidenceRow>, url: string, hash: string) {
    exists i :: 0 <= i < |rows| && rows[i].url == url && rows[i].hash == hash
  }

  /** Evidence is added unless its content is stored. */
  lemma {:induction false} RowMeans(rows: seq<EvidenceRow>, row: EvidenceRow)
    ensures WithRow(rows, row) == if HasContent(rows, row.url, row.hash) then rows else rows + [row]
  {
    var found := FindContent(rows, row.url, row.hash);
    if i :| 0 <= i < |rows| && rows[i].url == row.url && rows[i].hash == row.hash {
      assert SameContent(rows[i], row.url, row.hash);
    }
  }

  predicate Claims(pages: seq<Page>, url: string, hash: string, claim: string) {
    exists i :: 0 <= i < |pages| && pages[i].url == url && pages[i].hash == hash && claim in pages[i].supports
  }

  /** After an import every earlier row supports what it did and what the pages of its content claim; a new content is
      valid, of the highest tier, and supports what its pages claim. */
  ghost predicate Enriched(rows: seq<EvidenceRow>, after: seq<EvidenceRow>, pages: seq<Page>, i: nat)
    requires i < |after|
  {
    && (forall claim :: claim in after[i].supports <==>
          (i < |rows| && claim in rows[i].supports) || Claims(pages, after[i].url, after[i].hash, claim))
    && (i < |rows| ==> after[i] == rows[i].(supports := after[i].supports))
    && (i >= |rows| ==>
          after[i].tier == CandidateAssessment.TierA && after[i].validation == CandidateAssessment.Valid)
  }

  lemma {:induction false} ClaimsSplit(pages: seq<Page>, url: string, hash: string, claim: string)
    requires pages != []
    ensures var last := pages[|pages| - 1];
            Claims(pages, url, hash, claim) <==>
            Claims(pages[..|pages| - 1], url, hash, claim)
            || (last.url == url && last.hash == hash && claim in last.supports)
  {
    var front := pages[..|pages| - 1];
    if i :| 0 <= i < |front| && front[i].url == url && front[i].hash == hash && claim in front[i].supports {
      assert pages[i] == front[i];
    }
    if i :| 0 <= i < |pages| && pages[i].url == url && pages[i].hash == hash && claim in pages[i].supports {
      if i < |front| { assert front[i] == pages[i]; }
    }
  }

  /** The contents stand apart, so a page concerns one row. */
  lemma {:induction false} OnePageEnriches(rows: seq<EvidenceRow>, before: seq<EvidenceRow>, pages: seq<Page>, i: nat)
    requires pages != [] && UniqueContent(before) && i < |WithImportedPage(before, pages[|pages| - 1])|
    requires |rows| <= |before| && (i < |before| ==> Enriched(rows, before, pages[..|pages| - 1], i))
    requires i >= |before| ==>
               forall claim, page :: page in pages[..|pages| - 1] ==>
                 !(page.url == pages[|pages| - 1].url && page.hash == pages[|pages| - 1].hash && claim in page.supports)
    ensures Enriched(rows, WithImportedPage(before, pages[|pages| - 1]), pages, i)
  {
    var last, after := pages[|pages| - 1], WithImportedPage(before, pages[|pages| - 1]);
    var found := FindContent(before, last.url, last.hash);
    forall claim ensures claim in after[i].supports <==>
                         (i < |rows| && claim in rows[i].supports) || Claims(pages, after[i].url, after[i].hash, claim)
    {
      ClaimsSplit(pages, after[i].url, after[i].hash, claim);
    }
  }

  lemma {:induction false} PagesHaveRows(rows: seq<EvidenceRow>, pages: seq<Page>, k: nat)
    requires k < |pages|
    ensures HasContent(WithImportedPages(rows, pages), pages[k].url, pages[k].hash)
  {
    var front, last := pages[..|pages| - 1], pages[|pages| - 1];
    var before := WithImportedPages(rows, front);
    var after := WithImportedPages(rows, pages);
    if k < |front| {
      PagesHaveRows(rows, front, k);
      var i :| 0 <= i < |before| && before[i].url == pages[k].url && before[i].hash == pages[k].hash;
      assert after[i].url == pages[k].url && after[i].hash == pages[k].hash;
    } else {
      var found := FindContent(before, last.url, last.hash);
      var i := if found.Some? then found.value else |before|;
      assert after[i].url == last.url && after[i].hash == last.hash;
    }
  }

  lemma {:induction false} ImportedPagesMean(rows: seq<EvidenceRow>, pages: seq<Page>, i: nat)
    requires UniqueContent(rows) && i < |WithImportedPages(rows, pages)|
    ensures Enriched(rows, WithImportedPages(rows, pages), pages, i)
  {
    if pages != [] {
      var front, last := pages[..|pages| - 1], pages[|pages| - 1];
      var before := WithImportedPages(rows, front);
      ImportedPagesKept(rows, front);
      if i < |before| {
        ImportedPagesMean(rows, front, i);
      } else {
        forall k | 0 <= k < |front| ensures !(front[k].url == last.url && front[k].hash == last.hash) {
          PagesHaveRows(rows, front, k);
        }
      }
      OnePageEnriches(rows, before, pages, i);
    }
  }

  /** Country evidence makes its content valid, of the highest tier, and a support of the country. */
  lemma {:induction false} CountryPageMeans(rows: seq<EvidenceRow>, url: string, hash: string, i: nat)
    requires UniqueContent(rows) && i < |WithCountryPage(rows, url, hash)|
    ensures var after := WithCountryPage(rows, url, hash);
            && |after| == |rows| + (if HasContent(rows, url, hash) then 0 else 1)
            && after[i]
               == if i < |rows| && !(rows[i].url == url && rows[i].hash == hash) then rows[i]
                  else EvidenceRow(url, hash, (if i < |rows| then rows[i].supports else {}) + {"country-evidence"},
                                   CandidateAssessment.TierA, CandidateAssessment.Valid)
  {
    var found := FindContent(rows, url, hash);
    if found.Some? { assert rows[found.value].url == url && rows[found.value].hash == hash; }
    if i < |rows| && rows[i].url == url && rows[i].hash == hash {
      assert SameContent(rows[i], url, hash);
      assert found == Some(i);
    }
  }

  /** The assessment reads every row. */
  lemma {:induction false} ReadMeans(rows: seq<EvidenceRow>)
    ensures |Read(rows)| == |rows|
    ensures forall i :: 0 <= i < |rows| ==>
              Read(rows)[i] == CandidateAssessment.Evidence(rows[i].url, rows[i].tier, rows[i].validation)
  {
    if rows != [] { ReadMeans(rows[..|rows| - 1]); }
  }

  // ---------------------------------------------------------------------------
  // New candidates
  // ---------------------------------------------------------------------------

  /** Undecided, with neither evidence, scores nor a lead. */
  predicate Blank(c: Candidate) {
    && !c.extracted && c.evidence == [] && c.assessments == [] && c.columns.priority.None? && c.columns.band.None?
    && c.columns.coverage == 0 && c.columns.confidence == 0
    && c.stamp.None? && c.promotedLead.None? && c.crmEmail == ""
    && c.subject.country == CandidateScoring.UnknownCountry && c.subject.buyerType == "" && c.subject.email == ""
    && c.subject.productTerms == c.subject.claims == c.subject.contactPaths == []
  }

  /** A hit that is a company waits for its verification, any other needs evidence; an imported company is being
      verified; one from the radar needs evidence, with its relationship as the reason. */
  lemma {:induction false} NewMeans(mission: string, hit: Hit, key: string, name: string, domain: string,
      crmDomain: string)
    ensures var c := NewFromHit(mission, hit);
            && Blank(c) && c.mission == mission && c.key == hit.key && c.isCompany == hit.isCompany
            && c.status == (if hit.isCompany then Discovered else NeedsEvidence)
            && c.code == (if hit.isCompany then NoCode else NonCompanyCode) && c.decisionReason == NoCode
            && c.subject.companyName == hit.title && c.subject.domain == hit.domain
            && c.subject.countryCode == hit.countryCode && c.crmDomain == hit.crmDomain
    ensures var c := NewFromImport(mission, key);
            && Blank(c) && c.mission == mission && c.key == key && c.isCompany && c.status == Verifying
            && c.code == NoCode && c.decisionReason == NoCode && c.crmDomain == ""
            && c.subject.companyName == c.subject.domain == c.subject.countryCode == ""
    ensures var c := NewFromRadar(mission, key, name, domain, crmDomain);
            && Blank(c) && c.mission == mission && c.key == key && c.isCompany && c.status == NeedsEvidence
            && c.code == NoCode && c.decisionReason == OtherCode && c.crmDomain == crmDomain
            && c.subject.companyName == name && c.subject.domain == domain && c.subject.countryCode == ""
  {
  }

  // ---------------------------------------------------------------------------
  // Changes
  // ---------------------------------------------------------------------------

  /** Nothing but the facts and what follows from them has changed. */
  predicate OnlyFacts(c: Candidate, c': Candidate) {
    c' == c.(subject := c'.subject, extracted := c'.extracted, crmEmail := c'.crmEmail, crmDomain := c'.crmDomain)
  }

  predicate HasFacts(c: Candidate, f: Facts) {
    && c.extracted && c.crmEmail == f.crmEmail && c.crmDomain == f.crmDomain
    && c.subject.companyName == f.companyName && c.subject.domain == f.domain && c.subject.buyerType == f.buyerType
    && c.subject.productTerms == f.productTerms && c.subject.claims == f.claims
    && c.subject.contactPaths == f.contactPaths && c.subject.email == f.email
  }

  /** Imported facts replace the stored ones: without a country it becomes unknown. Verified facts replace them too, but
      keep the country they do not tell. */
  lemma {:induction false} FactsMean(c: Candidate, f: Facts)
    ensures var c' := WithFacts(c, f);
            && OnlyFacts(c, c') && HasFacts(c', f)
            && (f.countryCode.Some? ==>
                  c'.subject.country == CandidateScoring.Confirmed && c'.subject.countryCode == f.countryCode.value)
            && (f.countryCode.None? ==>
                  c'.subject.country == CandidateScoring.UnknownCountry && c'.subject.countryCode == "")
    ensures var c' := WithVerifiedFacts(c, f);
            && OnlyFacts(c, c') && HasFacts(c', f)
            && (f.countryCode.Some? ==>
                  c'.subject.country == CandidateScoring.Confirmed && c'.subject.countryCode == f.countryCode.value)
            && (f.countryCode.None? ==>
                  c'.subject.country == c.subject.country && c'.subject.countryCode == c.subject.countryCode)
  {
  }

  /** A read page tells contacts and perhaps the country. */
  lemma {:induction false} PageMeans(c: Candidate, country: Option<string>, paths: seq<string>, email: string)
    ensures var c' := WithPage(c, country, paths, email);
            && c' == c.(subject := c'.subject, crmEmail := email)
            && c'.subject == c.subject.(contactPaths := paths, country := c'.subject.country,
                                        countryCode := c'.subject.countryCode)
            && (country.Some? ==>
                  c'.subject.country == CandidateScoring.Confirmed && c'.subject.countryCode == country.value)
            && (country.None? ==>
                  c'.subject.country == c.subject.country && c'.subject.countryCode == c.subject.countryCode)
  {
  }

  /** The small changes of status. */
  lemma {:induction false} StatusChangesMean(c: Candidate, budgetLeft: bool)
    ensures Claimed(c, budgetLeft)
         == if budgetLeft && c.status == Discovered && c.isCompany then c.(status := Verifying) else c
    ensures Retried(c) == if c.status == NeedsEvidence then c.(status := Verifying) else c
    ensures Repaired(c) == if c.status == Discovered || c.status == Verifying then c.(status := NeedsEvidence) else c
    ensures IdentityDoubted(c) == c.(isCompany := false)
  {
  }

  /** A hit is stored as unverified evidence that supports nothing, of the tier D, and may claim its candidate. */
  lemma {:induction false} HitMeans(c: Candidate, hit: Hit, budgetLeft: bool)
    ensures var row := EvidenceRow(hit.url, hit.hash, {}, CandidateAssessment.TierD, CandidateAssessment.Unverified);
            HitStored(c, hit, budgetLeft)
            == c.(evidence := WithRow(c.evidence, row),
                  status := if budgetLeft && c.status == Discovered && c.isCompany then Verifying else c.status)
  {
  }

  /** A country is taken from a person exactly while the candidate needs evidence because of its country. It is
      confirmed with its evidence, and the candidate is assessed anew. */
  lemma {:induction false} CountryMeans(c: Candidate, k: Confirmation)
    ensures CanOverride(c) <==>
            c.status == NeedsEvidence
            && (c.code == Because(CandidateScoring.CountryUnknown)
                || c.code == Because(CandidateScoring.CountryConflicting))
    ensures WithCountry(c, k)
         == c.(subject := c.subject.(country := CandidateScoring.Confirmed, countryCode := k.countryCode),
               code := CountryConfirmedCode, status := Verifying, decisionReason := NoCode,
               evidence := WithCountryPage(c.evidence, k.url, k.hash))
  {
  }

  // ---------------------------------------------------------------------------
  // Assessments
  // ---------------------------------------------------------------------------

  predicate HumanDecided(c: Candidate) {
    c.status == Accepted || c.status == CandidateStatus.Promoted || c.status == Rejected
  }

  /** The row was computed with the same prompt and model from the same usable evidence. */
  predicate OfVersion(row: AssessmentRow, c: Candidate, p: Provenance) {
    row.version == (if c.extracted then Extracted(p) else EvidenceOnly) && row.bundle == Bundle(c.evidence)
  }

  ghost predicate HasVersion(c: Candidate, p: Provenance) {
    exists i :: 0 <= i < |c.assessments| && OfVersion(c.assessments[i], c, p)
  }

  lemma {:induction false} VersionIff(c: Candidate, p: Provenance)
    ensures StoredVersion(c, p).Some? <==> HasVersion(c, p)
    ensures StoredVersion(c, p).Some? ==> OfVersion(c.assessments[StoredVersion(c, p).value], c, p)
  {
    var found := StoredVersion(c, p);
    if found.Some? { assert IsVersion(c.assessments[found.value], VersionOf(c.extracted, p), Bundle(c.evidence)); }
    if i :| 0 <= i < |c.assessments| && OfVersion(c.assessments[i], c, p) {
      assert IsVersion(c.assessments[i], VersionOf(c.extracted, p), Bundle(c.evidence));
    }
  }

  /** An assessment stores its row unless there is one of that version, writes the columns in any case, and the status
      and its code only unless a person has decided. */
  lemma {:induction false} ConclusionMeans(c: Candidate, target: Target, p: Provenance, at: Time)
    ensures var c', k := Concluded(c, target, p, at), ComputationOf(c, target);
            && c' == c.(assessments := c'.assessments, columns := ColumnsOf(k), status := c'.status, code := c'.code)
            && c'.assessments
               == (if HasVersion(c, p) then c.assessments
                   else c.assessments + [AssessmentRow(if c.extracted then Extracted(p) else EvidenceOnly,
                                                       Bundle(c.evidence), k, at)])
            && (HumanDecided(c) ==> c'.status == c.status && c'.code == c.code)
            && (!HumanDecided(c) ==>
                  && (c'.status == Eligible <==> k.gate.disposition == CandidateScoring.Eligible)
                  && (c'.status == NeedsEvidence <==> k.gate.disposition == CandidateScoring.NeedsEvidence)
                  && (c'.status == Rejected <==> k.gate.disposition == CandidateScoring.Rejected)
                  && c'.code == if k.gate.reasons == [] then EligibleCode else Because(k.gate.reasons[0]))
  {
    VersionIff(c, p);
  }

  predicate Disagrees(row: AssessmentRow, c: Candidate, target: Target, p: Provenance) {
    OfVersion(row, c, p) && row.computed != ComputationOf(c, target)
  }

  /** An import or an override is refused exactly if a stored assessment of its version says something else. */
  lemma {:induction false} ConflictMeans(c: Candidate, target: Target, p: Provenance)
    requires UniqueVersions(c.assessments)
    ensures Conflicts(c, target, p) <==>
            exists i :: 0 <= i < |c.assessments| && Disagrees(c.assessments[i], c, target, p)
  {
    VersionIff(c, p);
    if i :| 0 <= i < |c.assessments| && Disagrees(c.assessments[i], c, target, p) {
      var k := StoredVersion(c, p).value;
      assert IsVersion(c.assessments[i], c.assessments[k].version, c.assessments[k].bundle);
      assert IsVersion(c.assessments[k], c.assessments[i].version, c.assessments[i].bundle);
    }
  }

  predicate HasItem(rows: seq<EvidenceRow>, url: string, hash: string, validation: CandidateAssessment.Validation) {
    exists i :: 0 <= i < |rows| && rows[i].url == url && rows[i].hash == hash && rows[i].validation == validation
  }

  /** The usable content of the evidence that identifies a version: each content that is valid or unverified, once. */
  lemma {:induction false} BundleMeans(rows: seq<EvidenceRow>, url: string, hash: string,
      validation: CandidateAssessment.Validation)
    requires UniqueContent(rows)
    ensures Bundle(rows)[Content(url, hash, validation)]
         == if HasItem(rows, url, hash, validation)
               && (validation == CandidateAssessment.Valid || validation == CandidateAssessment.Unverified)
            then 1 else 0
  {
    if rows != [] {
      var front, last := rows[..|rows| - 1], rows[|rows| - 1];
      BundleMeans(front, url, hash, validation);
      if i :| 0 <= i < |rows| && rows[i].url == url && rows[i].hash == hash && rows[i].validation == validation {
        assert i < |front| ==> front[i] == rows[i];
      }
      if i :| 0 <= i < |front| && front[i].url == url && front[i].hash == hash && front[i].validation == validation {
        assert rows[i] == front[i];
        assert !SameContent(rows[i], last.url, last.hash);
      }
    }
  }

  /** The latest assessment has the greatest time, and is the last of those that have it. */
  lemma {:induction false} LatestMeans(rows: seq<AssessmentRow>, i: nat)
    requires i < |rows|
    ensures Latest(rows).Some? && Latest(rows).value < |rows|
    ensures var latest := Latest(rows).value;
            rows[i].at <= rows[latest].at && (rows[i].at == rows[latest].at ==> i <= latest)
  {
    var last := |rows| - 1;
    if i < last { LatestMeans(rows[..last], i); }
  }

  /** The columns are the priority, the band and the coverage of the score, and its data quality as the confidence. */
  lemma {:induction false} ColumnsMean(k: Computation)
    requires ScoreOf(k).Scored?
    ensures var r, columns := ScoreOf(k).result, ColumnsOf(k);
            && columns.priority == r.priority && columns.band == Some(r.band) && columns.coverage == r.coverage
            && (r.quality.Some? ==> columns.confidence == r.quality.value)
            && (r.quality.None? ==> columns.confidence == 0)
  {
  }

  // ---------------------------------------------------------------------------
  // The gate on stored facts
  // ---------------------------------------------------------------------------

  predicate WrongPlace(s: Subject, t: Target) {
    s.country == CandidateScoring.Confirmed && t.targetCountries != {} && s.countryCode !in t.targetCountries
  }

  predicate WrongBuyer(s: Subject, t: Target) {
    s.buyerType != "" && t.expectedBuyers != {} && s.buyerType !in t.expectedBuyers
  }

  predicate Nameless(s: Subject) {
    s.companyName == "" || s.domain == ""
  }

  /** The reasons that apply to stored facts. */
  lemma {:induction false} AppliesMeans(s: Subject, t: Target, r: CandidateScoring.Reason)
    requires s.country == CandidateScoring.Confirmed || s.country == CandidateScoring.UnknownCountry
    ensures CandidateScoring.Applies(CandidateAssessment.FactsOf(s, t), r) <==>
            match r
            case WrongCountry => WrongPlace(s, t)
            case WrongBuyerType => WrongBuyer(s, t)
            case ExcludedBusiness => t.excluded
            case NoIndependentIdentity => Nameless(s)
            case CountryUnknown => s.country == CandidateScoring.UnknownCountry
            case BuyerTypeUnknown => s.buyerType == ""
            case ProductEvidenceUnknown => s.productTerms == [] && s.claims == []
            case ContactPathUnknown => s.contactPaths == [] && s.email == ""
            case _ => false
  {
  }

  lemma {:induction false} FirstIs(f: CandidateScoring.GateFacts, g: CandidateScoring.GateResult,
      r: CandidateScoring.Reason)
    requires CandidateScoring.GateAnswers(f, g) && r in g.reasons
    requires forall q :: CandidateScoring.Applies(f, q) ==> CandidateScoring.Rank(r) <= CandidateScoring.Rank(q)
    ensures g.reasons != [] && g.reasons[0] == r
  {
    assert g.reasons[0] in g.reasons;
    var i :| 0 <= i < |g.reasons| && g.reasons[i] == r;
  }

  predicate RejectedBy(s: Subject, t: Target) {
    WrongPlace(s, t) || WrongBuyer(s, t) || t.excluded || Nameless(s)
  }

  function Rejection(s: Subject, t: Target): CandidateScoring.Reason {
    if WrongPlace(s, t) then CandidateScoring.WrongCountry
    else if WrongBuyer(s, t) then CandidateScoring.WrongBuyerType
    else if t.excluded then CandidateScoring.ExcludedBusiness
    else CandidateScoring.NoIndependentIdentity
  }

  predicate Doubtful(s: Subject) {
    s.country == CandidateScoring.UnknownCountry || s.buyerType == "" || (s.productTerms == [] && s.claims == [])
    || (s.contactPaths == [] && s.email == "")
  }

  function Doubt(s: Subject): CandidateScoring.Reason {
    if s.country == CandidateScoring.UnknownCountry then CandidateScoring.CountryUnknown
    else if s.buyerType == "" then CandidateScoring.BuyerTypeUnknown
    else if s.productTerms == [] && s.claims == [] then CandidateScoring.ProductEvidenceUnknown
    else CandidateScoring.ContactPathUnknown
  }

  lemma {:induction false} RejectionComesFirst(s: Subject, t: Target, q: CandidateScoring.Reason)
    requires s.country == CandidateScoring.Confirmed || s.country == CandidateScoring.UnknownCountry
    requires CandidateScoring.Applies(CandidateAssessment.FactsOf(s, t), q)
    ensures CandidateScoring.Rejecting(q) ==> RejectedBy(s, t)
    ensures RejectedBy(s, t) ==> CandidateScoring.Rank(Rejection(s, t)) <= CandidateScoring.Rank(q)
    ensures !RejectedBy(s, t) ==> Doubtful(s) && CandidateScoring.Rank(Doubt(s)) <= CandidateScoring.Rank(q)
  {
    AppliesMeans(s, t, q);
  }

  lemma {:induction false} GateAgrees(s: Subject, t: Target, g: CandidateScoring.GateResult)
    requires s.country == CandidateScoring.Confirmed || s.country == CandidateScoring.UnknownCountry
    requires CandidateScoring.GateAnswers(CandidateAssessment.FactsOf(s, t), g)
    ensures g.disposition == CandidateScoring.Rejected <==> RejectedBy(s, t)
    ensures g.disposition == CandidateScoring.Eligible <==> !RejectedBy(s, t) && !Doubtful(s)
  {
    var f := CandidateAssessment.FactsOf(s, t);
    if RejectedBy(s, t) {
      AppliesMeans(s, t, Rejection(s, t));
      assert CandidateScoring.Rejecting(Rejection(s, t));
    } else if Doubtful(s) {
      AppliesMeans(s, t, Doubt(s));
    }
    forall q | CandidateScoring.Applies(f, q)
      ensures (CandidateScoring.Rejecting(q) ==> RejectedBy(s, t)) && (RejectedBy(s, t) || Doubtful(s))
    {
      RejectionComesFirst(s, t, q);
    }
  }

  /** A stored candidate is rejected exactly for a country or a buyer type outside the target, an excluded business, or
      a missing name or domain; the first of these is the reason given. Otherwise what is unknown of its country, its
      buyer type, its products and its contacts, in this order, makes it need evidence. */
  lemma {:induction false} GateMeans(s: Subject, t: Target)
    requires s.country == CandidateScoring.Confirmed || s.country == CandidateScoring.UnknownCountry
    ensures var g := CandidateScoring.GateOf(CandidateAssessment.FactsOf(s, t));
            && (g.disposition == CandidateScoring.Rejected <==> RejectedBy(s, t))
            && (g.disposition == CandidateScoring.Eligible <==> !RejectedBy(s, t) && !Doubtful(s))
            && (RejectedBy(s, t) ==> g.reasons != [] && g.reasons[0] == Rejection(s, t))
            && (!RejectedBy(s, t) && Doubtful(s) ==> g.reasons != [] && g.reasons[0] == Doubt(s))
            && (!RejectedBy(s, t) && !Doubtful(s) ==> g.reasons == [])
  {
    var f := CandidateAssessment.FactsOf(s, t);
    var g := CandidateScoring.GateOf(f);
    CandidateScoring.GateOfAnswers(f);
    GateAgrees(s, t, g);
    forall q | CandidateScoring.Applies(f, q)
      ensures RejectedBy(s, t) ==> CandidateScoring.Rank(Rejection(s, t)) <= CandidateScoring.Rank(q)
      ensures !RejectedBy(s, t) ==> CandidateScoring.Rank(Doubt(s)) <= CandidateScoring.Rank(q)
    {
      RejectionComesFirst(s, t, q);
    }
    if RejectedBy(s, t) {
      AppliesMeans(s, t, Rejection(s, t));
      FirstIs(f, g, Rejection(s, t));
    } else if Doubtful(s) {
      AppliesMeans(s, t, Doubt(s));
      FirstIs(f, g, Doubt(s));
    }
  }

  /** What an assessment concludes from the stored facts, unless a person has decided. */
  lemma {:induction false} AssessmentDecides(c: Candidate, target: Target, p: Provenance, at: Time)
    requires c.subject.country == CandidateScoring.Confirmed || c.subject.country == CandidateScoring.UnknownCountry
    requires !HumanDecided(c)
    ensures var c', s := Concluded(c, target, p, at), c.subject;
            && (RejectedBy(s, target) ==> c'.status == Rejected && c'.code == Because(Rejection(s, target)))
            && (!RejectedBy(s, target) && Doubtful(s) ==> c'.status == NeedsEvidence && c'.code == Because(Doubt(s)))
            && (!RejectedBy(s, target) && !Doubtful(s) ==> c'.status == Eligible && c'.code == EligibleCode)
  {
    ConclusionMeans(c, target, p, at);
    GateMeans(c.subject, target);
  }

  // ---------------------------------------------------------------------------
  // The signals of stored facts
  // ---------------------------------------------------------------------------

  function Trust(tier: CandidateAssessment.Tier): int {
    match tier case TierA => 100 case TierB => 80 case TierC => 60 case TierD => 40 case TierE => 20 case OtherTier => 0
  }

  predicate CountsAsEvidence(e: CandidateAssessment.Evidence) {
    e.validation == CandidateAssessment.Valid || e.validation == CandidateAssessment.Unverified
  }

  /** The signals that come from the facts, with their fixed values. */
  lemma {:induction false} FactSignalsMean(s: Subject, t: Target, usable: seq<CandidateAssessment.Evidence>)
    requires s.country == CandidateScoring.Confirmed || s.country == CandidateScoring.UnknownCountry
    ensures var v := CandidateAssessment.SignalsOf(s, t, usable);
            && v.productRelevance == (if s.productTerms != [] then Some(85) else None)
            && v.industryMatch == (if s.productTerms != [] then Some(70) else None)
            && v.buyerRole == (if s.buyerType == "" then None else if WrongBuyer(s, t) then Some(0) else Some(85))
            && v.countryMatch
               == (if s.country == CandidateScoring.UnknownCountry then None
                   else if WrongPlace(s, t) then Some(0) else Some(100))
            && v.identityQuality == (if Nameless(s) then None else Some(90))
            && v.contactability == (if s.contactPaths == [] && s.email == "" then None else Some(80))
            && v.companySize == v.directPurchase == v.recentActivity == v.competitorSignal == v.signalRecency == None
  {
  }

  /** Some item of the evidence counts. */
  ghost predicate SomeCounts(evidence: seq<CandidateAssessment.Evidence>) {
    exists e :: e in evidence && CountsAsEvidence(e)
  }

  /** The best trust of an item that counts. */
  ghost predicate BestIs(evidence: seq<CandidateAssessment.Evidence>, trust: int) {
    && (forall e :: e in evidence && CountsAsEvidence(e) ==> Trust(e.tier) <= trust)
    && exists e :: e in evidence && CountsAsEvidence(e) && Trust(e.tier) == trust
  }

  ghost function UrlsOf(evidence: seq<CandidateAssessment.Evidence>): set<string> {
    set e | e in evidence && CountsAsEvidence(e) && e.url != "" :: e.url
  }

  /** The signals that come from the evidence: the trust of its best item, its recency, and the number of its pages. */
  lemma {:induction false} EvidenceSignalsMean(s: Subject, t: Target, evidence: seq<CandidateAssessment.Evidence>)
    ensures var v := CandidateAssessment.SignalsOf(s, t, CandidateAssessment.Usable(evidence));
            && v.dataRecency == (if SomeCounts(evidence) then Some(90) else None)
            && (v.sourceTrust.Some? ==> v.sourceTrust.value > 0 && BestIs(evidence, v.sourceTrust.value))
            && (v.sourceTrust.None? ==>
                  forall e :: e in evidence && CountsAsEvidence(e) ==> Trust(e.tier) == 0)
            && v.independentEvidence
               == (if |UrlsOf(evidence)| >= 2 then Some(80) else if |UrlsOf(evidence)| == 1 then Some(50) else None)
  {
    var usable := CandidateAssessment.Usable(evidence);
    forall e ensures e in usable <==> e in evidence && CountsAsEvidence(e) {
      CandidateAssessment.UsableMembers(evidence, e);
    }
    forall tier ensures Trust(tier) == CandidateAssessment.TrustValue(tier) {
    }
    CandidateAssessment.BestTrustIsGreatest(usable);
    assert CandidateAssessment.Sources(usable) == UrlsOf(evidence);
    assert usable != [] ==> usable[0] in usable;
  }

  // ---------------------------------------------------------------------------
  // Which candidate a transaction changes
  // ---------------------------------------------------------------------------

  predicate KeyedBy(c: Candidate, mission: string, key: string) {
    c.mission == mission && c.key == key
  }

  /** The candidate of the mission and the key is changed, a new one is added if there is none, and nothing else
      happens. */
  ghost predicate Upserts(s: State, s': State, mission: string, key: string, a: Action, initial: Candidate)
    requires a.DiscoverHit? || a.ImportUrl? || a.ConvertRadar?
  {
    && s' == s.(candidates := s'.candidates)
    && (forall i :: 0 <= i < |s.candidates| && KeyedBy(s.candidates[i], mission, key) ==>
          s'.candidates == s.candidates[i := Changed(s.candidates[i], a)])
    && ((forall i :: 0 <= i < |s.candidates| ==> !KeyedBy(s.candidates[i], mission, key)) ==>
          s'.candidates == s.candidates + [Changed(initial, a)])
  }

  /** No two candidates share their mission and key; so it is in every reachable state. */
  ghost predicate KeysApart(candidates: seq<Candidate>) {
    forall i, j :: 0 <= i < j < |candidates| ==> !KeyedBy(candidates[i], candidates[j].mission, candidates[j].key)
  }

  lemma {:induction false} ReachableKeys(actions: seq<Action>)
    ensures KeysApart(Run(actions).candidates)
  {
    InvRun(actions);
    var candidates := Run(actions).candidates;
    forall i, j | 0 <= i < j < |candidates|
      ensures !KeyedBy(candidates[i], candidates[j].mission, candidates[j].key)
    {
      assert !HasKey(candidates[i], candidates[j].mission, candidates[j].key);
    }
  }

  lemma {:induction false} FoundByKey(candidates: seq<Candidate>, mission: string, key: string)
    requires KeysApart(candidates)
    ensures forall i :: 0 <= i < |candidates| && KeyedBy(candidates[i], mission, key) ==>
              FindByKey(candidates, mission, key) == Some(i)
    ensures (forall i :: 0 <= i < |candidates| ==> !KeyedBy(candidates[i], mission, key)) ==>
              FindByKey(candidates, mission, key).None?
  {
    var found := FindByKey(candidates, mission, key);
    forall i | 0 <= i < |candidates| && KeyedBy(candidates[i], mission, key) ensures found == Some(i) {
      assert HasKey(candidates[i], mission, key) && HasKey(candidates[found.value], mission, key);
    }
  }

  /** A hit, an import and a conversion from the radar find their candidate by the mission and the key. */
  lemma {:induction false} UpsertsMean(s: State, a: Action)
    requires KeysApart(s.candidates)
    ensures a.DiscoverHit? ==> Upserts(s, Next(s, a), a.mission, a.hit.key, a, NewFromHit(a.mission, a.hit))
    ensures a.ImportUrl? ==> Upserts(s, Next(s, a), a.mission, a.key, a, NewFromImport(a.mission, a.key))
    ensures a.ConvertRadar? ==>
              Upserts(s, Next(s, a), a.mission, a.key, a,
                      NewFromRadar(a.mission, a.key, a.companyName, a.domain, a.crmDomain))
  {
    if a.DiscoverHit? { FoundByKey(s.candidates, a.mission, a.hit.key); }
    if a.ImportUrl? || a.ConvertRadar? { FoundByKey(s.candidates, a.mission, a.key); }
  }

  predicate NamesCandidate(a: Action) {
    || a.VerifyPage? || a.VerifyIdentity? || a.SaveEvidence? || a.VerifyFacts? || a.Assess? || a.Retry?
    || a.OverrideCountry? || a.Repair?
  }

  /** The other transactions change the candidate they name. */
  lemma {:induction false} ChangesMean(s: State, a: Action)
    requires NamesCandidate(a)
    ensures Next(s, a)
         == if a.candidate < |s.candidates|
            then s.(candidates := s.candidates[a.candidate := Changed(s.candidates[a.candidate], a)]) else s
  {
  }

  /** What a transaction does to its candidate: a hit, a page, evidence and doubts about its identity. */
  lemma {:induction false} EvidenceChangesMean(c: Candidate, a: Action)
    ensures a.DiscoverHit? ==> Changed(c, a) == HitStored(c, a.hit, a.budgetLeft)
    ensures a.ConvertRadar? || a.SaveEvidence? ==> Changed(c, a) == c.(evidence := WithRow(c.evidence, a.row))
    ensures a.VerifyPage? ==> Changed(c, a) == WithPage(c, a.found, a.contactPaths, a.crmEmail)
    ensures a.VerifyIdentity? ==> Changed(c, a) == c.(isCompany := false)
    ensures a.VerifyFacts? ==> Changed(c, a) == WithVerifiedFacts(c, a.facts)
  {
  }

  /** A retry, a repair, the job that assesses it with the facts of the model, an import and the override of its
      country; the last two are rolled back if their assessment is refused. */
  lemma {:induction false} StatusTransactionsMean(c: Candidate, a: Action)
    ensures a.Retry? ==> Changed(c, a) == if c.status == NeedsEvidence then c.(status := Verifying) else c
    ensures a.Repair? ==>
              Changed(c, a)
              == if c.status == Discovered || c.status == Verifying then c.(status := NeedsEvidence) else c
    ensures a.Assess? ==> Changed(c, a) == Concluded(c, a.target, FromModel(a.model), a.at)
    ensures a.ImportUrl? ==> Changed(c, a) == Imported(c, a.imported, a.target)
    ensures a.OverrideCountry? ==>
              var k, c1 := a.confirmation, WithCountry(c, a.confirmation);
              Changed(c, a)
              == if CanOverride(c) && !Conflicts(c1, a.target, FromCountryEvidence)
                 then Concluded(c1, a.target, FromCountryEvidence, k.at) else c
  {
  }

  /** An import merges its pages into the evidence and concludes, or is refused and changes nothing. */
  lemma {:induction false} ImportMeans(c: Candidate, found: Import, target: Target)
    ensures var c1 := WithFacts(c, found.facts).(evidence := WithImportedPages(c.evidence, found.pages));
            Imported(c, found, target)
            == if Conflicts(c1, target, found.provenance) then c
               else Concluded(c1, target, found.provenance, found.at)
  {
  }

  /** A promotion that is refused and a review that is refused change nothing. */
  lemma {:induction false} PromotionsMean(s: State, id: nat, ids: seq<nat>, d: Decision)
    ensures Next(s, Promote(id))
         == if id < |s.candidates| && PromoteIn(s, id).Promotion? then PromoteIn(s, id).state else s
    ensures Next(s, Review(id, d)) == if Reviewed(s, id, d).Some? then Reviewed(s, id, d).value else s
    ensures Next(s, BulkReview(ids, d)) == if BulkReviewed(s, ids, d).Some? then BulkReviewed(s, ids, d).value else s
  {
  }
}
