/** The tables of candidates and of the CRM, and the routines that write them. */
module CandidateTables {
  import opened Common
  import opened AcquisitionRows
  import opened CandidateEvidence
  import opened AssessmentRows
  import opened CandidateRows
  import opened CandidateLifecycle
  import opened CandidateHistory
  import CandidateScoring
  import CandidateAssessment

  lemma {:induction false} BulkStaysRefused(s: State, ids: seq<nat>, d: Decision, n: nat)
    requires (forall i :: 0 <= i < |ids| ==> ids[i] < |s.candidates|) && n <= |ids|
    requires BulkApplied(s, ids[..n], d).None?
    ensures BulkApplied(s, ids, d).None?
    decreases |ids|
  {
    if n == |ids| {
      assert ids[..n] == ids;
    } else {
      assert ids[..|ids| - 1][..n] == ids[..n];
      BulkStaysRefused(s, ids[..|ids| - 1], d, n);
    }
  }

  lemma {:induction false} OneMoreHit(s: State, mission: string, hits: seq<Hit>, k: nat, maxVerify: nat)
    requires k < |hits|
    ensures AfterHits(s, mission, hits[..k + 1], maxVerify)
        == AfterHit(AfterHits(s, mission, hits[..k], maxVerify), mission, hits[k], maxVerify)
  {
    assert hits[..k + 1][..k] == hits[..k];
  }

  /** Finding or adding a row and then replacing it by its change is an upsert. */
  lemma {:induction false} UpsertedRows(s: State, a: Action, id: nat, row: Candidate, after: seq<Candidate>)
    requires Upserting(a)
    requires var found := FindByKey(s.candidates, a.mission, KeyOf(a));
             if found.Some? then id == found.value && row == s.candidates[id]
                 && after == s.candidates[id := Changed(row, a)]
             else id == |s.candidates| && row == InitialOf(a) && after == (s.candidates + [row])[id := Changed(row, a)]
    ensures Next(s, a) == s.(candidates := after)
  {
    if FindByKey(s.candidates, a.mission, KeyOf(a)).None? {
      assert (s.candidates + [row])[id := Changed(row, a)] == s.candidates + [Changed(row, a)];
    }
  }

  lemma {:induction false} AssessActs(s: State, id: nat, target: Target, model: string, at: Time)
    requires id < |s.candidates|
    ensures Next(s, Assess(id, target, model, at))
         == s.(candidates := s.candidates[id := Concluded(s.candidates[id], target, FromModel(model), at)])
  {
    var a := Assess(id, target, model, at);
    assert Changing(a) && !Upserting(a);
    assert Next(s, a) == NextChange(s, a);
    assert Changed(s.candidates[id], a) == Assessed(s.candidates[id], target, model, at);
  }

  lemma {:induction false} OverrideActs(s: State, id: nat, k: Confirmation, target: Target)
    ensures Next(s, OverrideCountry(id, k, target)) ==
            if id < |s.candidates| && !OverrideRefused(s.candidates[id], k, target)
            then s.(candidates := s.candidates[id := Overridden(s.candidates[id], k, target)]) else s
  {
    var a := OverrideCountry(id, k, target);
    assert Changing(a) && !Upserting(a);
    assert Next(s, a) == NextChange(s, a);
    if id < |s.candidates| {
      assert Changed(s.candidates[id], a) == Overridden(s.candidates[id], k, target);
      assert s.candidates[id := s.candidates[id]] == s.candidates;
    }
  }

  lemma {:induction false} RefusedImport(s: State, a: Action, id: nat)
    requires a.ImportUrl? && FindByKey(s.candidates, a.mission, a.key) == Some(id)
    requires ImportRefused(s.candidates[id], a.imported, a.target)
    ensures Next(s, a) == s
  {
    assert s.candidates[id := s.candidates[id]] == s.candidates;
  }

  lemma {:induction false} ImportUpserts(s: State, a: Action, id: nat, row: Candidate, after: seq<Candidate>)
    requires a.ImportUrl? && HasKey(row, a.mission, a.key)
    requires var c := Imported(row, a.imported, a.target);
             var found := FindByKey(s.candidates, a.mission, a.key);
             if found.Some? then id == found.value && row == s.candidates[id] && after == s.candidates[id := c]
             else
               id == |s.candidates| && row == NewFromImport(a.mission, a.key)
               && after == (s.candidates + [row])[id := c]
    ensures Next(s, a) == s.(candidates := after)
    ensures id < |after| && HasKey(after[id], a.mission, a.key)
  {
    ImportActs(a.mission, a.key, a.imported, a.target, row);
    ImportedKeeps(row, a.imported, a.target);
    UpsertedRows(s, a, id, row, after);
  }

  lemma {:induction false} ImportEnds(s: State, a: Action, id: nat, row: Candidate, after: seq<Candidate>, ok: bool)
    requires a.ImportUrl? && HasKey(row, a.mission, a.key) && (ok <==> !ImportRefused(row, a.imported, a.target))
    requires var found := FindByKey(s.candidates, a.mission, a.key);
             if found.Some? then id == found.value && row == s.candidates[id]
             else id == |s.candidates| && row == NewFromImport(a.mission, a.key) && ok
    requires ok ==>
               var c, found := Imported(row, a.imported, a.target), FindByKey(s.candidates, a.mission, a.key);
               after == (if found.Some? then s.candidates else s.candidates + [row])[id := c]
    ensures if ok then Next(s, a) == s.(candidates := after) && id < |after| && HasKey(after[id], a.mission, a.key)
            else Next(s, a) == s
  {
    if ok { ImportUpserts(s, a, id, row, after); } else { RefusedImport(s, a, id); }
  }

  class CandidateStore {
    var candidates: seq<Candidate>
    var companies: map<string, nat>
    var leads: seq<Option<Lead>>
    var activities: seq<Activity>

    ghost function Snapshot(): State
      reads this
    {
      State(candidates, companies, leads, activities)
    }

    /** The assessment job: a stored assessment of the same version is kept, whatever it says. */
    method AssessCandidate(id: nat, target: Target, model: string, at: Time)
      requires id < |candidates|
      modifies `candidates
      ensures Snapshot() == Next(old(Snapshot()), Assess(id, target, model, at))
    {
      AssessActs(Snapshot(), id, target, model, at);
      Conclude(id, target, FromModel(model), at);
    }

    /** The assessment inside another transaction, which is refused if a stored assessment of the same version says
        something else. */
    method AssessInSession(id: nat, target: Target, p: Provenance, at: Time) returns (ok: bool)
      requires id < |candidates|
      modifies `candidates
      ensures ok <==> !Conflicts(old(candidates)[id], target, p)
      ensures candidates == if ok then old(candidates)[id := Concluded(old(candidates)[id], target, p, at)]
                            else old(candidates)
    {
      var c := candidates[id];
      var stored := StoredVersion(c, p);
      if stored.Some? {
        var row, k := c.assessments[stored.value], ComputationOf(c, target);
        if row.computed.input != k.input || row.computed.gate != k.gate {
          return false;
        }
      }
      Conclude(id, target, p, at);
      ok := true;
    }

    /** Store the assessment unless its version is stored, write the columns, and let a human decision win. */
    method Conclude(id: nat, target: Target, p: Provenance, at: Time)
      requires id < |candidates|
      modifies `candidates
      ensures candidates == old(candidates)[id := Concluded(old(candidates)[id], target, p, at)]
    {
      var c := candidates[id];
      var gate := CandidateScoring.EvaluateGate(CandidateAssessment.FactsOf(c.subject, target));
      var k := ComputationOf(c, target);
      if StoredVersion(c, p).None? {
        c := c.(assessments := c.assessments + [AssessmentRow(VersionOf(c.extracted, p), Bundle(c.evidence), k, at)]);
      }
      c := c.(columns := ColumnsOf(k));
      if c.status != Accepted && c.status != CandidateStatus.Promoted && c.status != Rejected {
        c := c.(status := StatusOf(gate.disposition),
                code := if gate.reasons != [] then Because(gate.reasons[0]) else EligibleCode);
      }
      candidates := candidates[id := c];
    }

    /** Find or add the candidate of an imported page, replace its facts and assess it; nothing is written if the
        assessment is refused. */
    method PersistUrlCandidate(mission: string, key: string, imported: Import, target: Target) returns (id: Option<nat>)
      modifies `candidates
      ensures Snapshot() == Next(old(Snapshot()), ImportUrl(mission, key, imported, target))
      ensures var found := FindByKey(old(candidates), mission, key);
              id.None? <==> found.Some? && ImportRefused(old(candidates)[found.value], imported, target)
      ensures id.Some? ==> id.value < |candidates| && HasKey(candidates[id.value], mission, key)
    {
      var rows := candidates;
      ghost var s := Snapshot();
      var i := FindOrAdd(mission, key);
      ghost var row := candidates[i];
      NewIsNotRefused(NewFromImport(mission, key), imported, target);
      var ok := ImportInto(i, imported, target);
      ImportEnds(s, ImportUrl(mission, key, imported, target), i, row, candidates, ok);
      if ok {
        return Some(i);
      }
      candidates := rows;
      id := None;
    }

    method FindOrAdd(mission: string, key: string) returns (id: nat)
      modifies `candidates
      ensures var found := FindByKey(old(candidates), mission, key);
              if found.Some? then id == found.value && candidates == old(candidates)
              else id == |old(candidates)| && candidates == old(candidates) + [NewFromImport(mission, key)]
    {
      var found := FindByKey(candidates, mission, key);
      if found.Some? {
        return found.value;
      }
      id := |candidates|;
      candidates := candidates + [NewFromImport(mission, key)];
    }

    method ImportInto(id: nat, imported: Import, target: Target) returns (ok: bool)
      requires id < |candidates|
      modifies `candidates
      ensures ok <==> !ImportRefused(old(candidates)[id], imported, target)
      ensures ok ==> candidates == old(candidates)[id := Imported(old(candidates)[id], imported, target)]
    {
      var c := WithFacts(candidates[id], imported.facts);
      var rows := AddPages(c.evidence, imported.pages);
      candidates := candidates[id := c.(evidence := rows)];
      ok := AssessInSession(id, target, imported.provenance, imported.at);
    }

    /** The loop over the fetched pages. */
    method AddPages(stored: seq<EvidenceRow>, pages: seq<Page>) returns (rows: seq<EvidenceRow>)
      ensures rows == WithImportedPages(stored, pages)
    {
      rows := stored;
      for k := 0 to |pages|
        invariant rows == WithImportedPages(stored, pages[..k])
      {
        assert pages[..k + 1][..k] == pages[..k];
        var page := pages[k];
        var found := FindContent(rows, page.url, page.hash);
        if found.Some? {
          var row := rows[found.value];
          rows := rows[found.value := row.(supports := row.supports + page.supports)];
          continue;
        }
        rows := rows + [EvidenceRow(page.url, page.hash, page.supports, CandidateAssessment.TierA,
            CandidateAssessment.Valid)];
      }
      assert pages[..|pages|] == pages;
    }

    /** One conditional row update. */
    method MarkVerifyingIfNeedsEvidence(id: nat) returns (changed: bool)
      modifies `candidates
      ensures Snapshot() == Next(old(Snapshot()), Retry(id))
      ensures changed <==> id < |old(candidates)| && old(candidates)[id].status.NeedsEvidence?
    {
      changed := id < |candidates| && candidates[id].status.NeedsEvidence?;
      if changed {
        candidates := candidates[id := candidates[id].(status := Verifying)];
      }
    }

    method OverrideCandidateCountry(id: nat, k: Confirmation, target: Target) returns (ok: bool)
      modifies `candidates
      ensures Snapshot() == Next(old(Snapshot()), OverrideCountry(id, k, target))
      ensures ok <==> id < |old(candidates)| && !OverrideRefused(old(candidates)[id], k, target)
    {
      var rows := candidates;
      OverrideActs(Snapshot(), id, k, target);
      ok := id < |candidates| && CanOverride(candidates[id]);
      if ok {
        ok := OverrideAndAssess(id, k, target);
      }
      if !ok {
        candidates := rows;
      }
    }

    method OverrideAndAssess(id: nat, k: Confirmation, target: Target) returns (ok: bool)
      requires id < |candidates| && CanOverride(candidates[id])
      modifies `candidates
      ensures ok <==> !OverrideRefused(old(candidates)[id], k, target)
      ensures ok ==> candidates == old(candidates)[id := Overridden(old(candidates)[id], k, target)]
    {
      StoreCountry(id, k);
      ok := AssessInSession(id, target, FromCountryEvidence, k.at);
    }

    method StoreCountry(id: nat, k: Confirmation)
      requires id < |candidates|
      modifies `candidates
      ensures candidates == old(candidates)[id := WithCountry(old(candidates)[id], k)]
    {
      var c := candidates[id];
      var rows := AddCountryPage(c.evidence, k.url, k.hash);
      candidates := candidates[id := c.(
        subject := c.subject.(country := CandidateScoring.Confirmed, countryCode := k.countryCode),
        code := CountryConfirmedCode, status := Verifying, decisionReason := NoCode, evidence := rows)];
    }

    method AddCountryPage(stored: seq<EvidenceRow>, url: string, hash: string) returns (rows: seq<EvidenceRow>)
      ensures rows == WithCountryPage(stored, url, hash)
    {
      var found := FindContent(stored, url, hash);
      if found.Some? {
        var row := stored[found.value];
        rows := stored[found.value := row.(supports := row.supports + {COUNTRY_EVIDENCE},
            tier := CandidateAssessment.TierA, validation := CandidateAssessment.Valid)];
      } else {
        rows := stored
          + [EvidenceRow(url, hash, {COUNTRY_EVIDENCE}, CandidateAssessment.TierA, CandidateAssessment.Valid)];
      }
    }

    /** Company, lead, candidate and history. */
    method WritePromotion(id: nat) returns (lead: nat, createdCompany: bool, createdLead: bool)
      requires id < |candidates| && candidates[id].crmDomain != "" && !Linked(leads, candidates[id])
      requires var s := candidates[id].status; s.Eligible? || s.Accepted? || s.Promoted?
      modifies `candidates, `companies, `leads, `activities
      ensures PromoteIn(old(Snapshot()), id) == Promotion(Snapshot(), lead, createdCompany, createdLead)
    {
      var c := candidates[id];
      createdCompany := c.crmDomain !in companies;
      if createdCompany {
        companies := companies[c.crmDomain := |companies|];
      }
      var found := if c.crmEmail != "" then FindByEmail(leads, c.crmEmail) else FindByCandidate(leads, id);
      createdLead := found.None?;
      lead := |leads|;
      if found.Some? {
        lead := found.value;
      } else {
        leads := leads + [Some(Lead(c.crmEmail, Some(companies[c.crmDomain]), Some(id), ScoresFor(c)))];
      }
      candidates := candidates[id := c.(status := CandidateStatus.Promoted, promotedLead := Some(lead))];
      activities := activities + [Activity(lead, id)];
    }

    /** The promotion inside a transaction; nothing is written when it is refused. */
    method PromoteInSession(id: nat) returns (result: Option<(nat, bool, bool)>)
      requires id < |candidates|
      modifies `candidates, `companies, `leads, `activities
      ensures var p := PromoteIn(old(Snapshot()), id);
              match p
              case Refused => result.None? && Snapshot() == old(Snapshot())
              case Promotion(s', lead, newCompany, newLead) =>
                result == Some((lead, newCompany, newLead)) && Snapshot() == s'
    {
      var c := candidates[id];
      if c.status != Eligible && c.status != Accepted && c.status != CandidateStatus.Promoted {
        return None;
      }
      if c.promotedLead.Some? && LeadAt(leads, c.promotedLead.value).Some? {
        return Some((c.promotedLead.value, false, false));
      }
      if c.crmDomain == "" {
        return None;
      }
      var lead, newCompany, newLead := WritePromotion(id);
      result := Some((lead, newCompany, newLead));
    }

    method PromoteCandidate(id: nat) returns (ok: bool)
      modifies `candidates, `companies, `leads, `activities
      ensures Snapshot() == Next(old(Snapshot()), Promote(id))
    {
      ok := false;
      if id < |candidates| {
        var result := PromoteInSession(id);
        ok := result.Some?;
      }
    }

    method Rollback(rows: seq<Candidate>, companyRows: map<string, nat>, leadRows: seq<Option<Lead>>,
        history: seq<Activity>)
      modifies this
      ensures Snapshot() == State(rows, companyRows, leadRows, history)
    {
      candidates := rows;
      companies := companyRows;
      leads := leadRows;
      activities := history;
    }

    method ReviewCandidate(id: nat, decision: Decision) returns (ok: bool)
      modifies this
      ensures Snapshot() == Next(old(Snapshot()), Review(id, decision))
      ensures ok <==> Reviewed(old(Snapshot()), id, decision).Some?
    {
      if !ValidDecision(decision) || id >= |candidates| {
        return false;
      }
      var c := candidates[id];
      match decision
      case Accept(_, stamp) =>
        if CountryUnresolved(c) || c.status != Eligible {
          return false;
        }
        var rows := candidates;
        candidates := candidates[id := Signed(c, NoCode, stamp).(status := Accepted)];
        var result := PromoteInSession(id);
        ok := result.Some?;
        if !ok {
          candidates := rows;
        }
      case Reject(reason, stamp) =>
        if c.status != Eligible && c.status != NeedsEvidence {
          return false;
        }
        candidates := candidates[id := c.(status := Rejected, decisionReason := reason, stamp := Some(stamp))];
        ok := true;
      case RequestEvidence(reason, stamp) =>
        if (c.status != Verifying && c.status != Eligible) || reason == NoCode {
          return false;
        }
        candidates := candidates[id := c.(status := NeedsEvidence, code := reason, decisionReason := reason,
            stamp := Some(stamp))];
        ok := true;
    }

    /** All rows are checked before any is changed, and a refused promotion rolls the whole batch back. */
    method BulkReviewCandidates(ids: seq<nat>, decision: Decision) returns (ok: bool)
      modifies this
      ensures Snapshot() == Next(old(Snapshot()), BulkReview(ids, decision))
      ensures ok <==> BulkReviewed(old(Snapshot()), ids, decision).Some?
    {
      var distinct := Distinct(ids);
      ok := CheckBatch(distinct, decision);
      if ok {
        var rows, companyRows, leadRows, history := candidates, companies, leads, activities;
        ok := ApplyBatch(distinct, decision);
        if !ok {
          Rollback(rows, companyRows, leadRows, history);
        }
      }
    }

    method ApplyBatch(ids: seq<nat>, decision: Decision) returns (ok: bool)
      requires forall i :: 0 <= i < |ids| ==> ids[i] < |candidates|
      modifies this
      ensures ok <==> BulkApplied(old(Snapshot()), ids, decision).Some?
      ensures ok ==> BulkApplied(old(Snapshot()), ids, decision) == Some(Snapshot())
    {
      ghost var s := Snapshot();
      for k := 0 to |ids|
        invariant |candidates| == |s.candidates|
        invariant BulkApplied(s, ids[..k], decision) == Some(Snapshot())
      {
        assert ids[..k + 1][..k] == ids[..k];
        var done := BulkReviewOne(ids[k], decision);
        if !done {
          BulkStaysRefused(s, ids, decision, k + 1);
          return false;
        }
      }
      assert ids[..|ids|] == ids;
      ok := true;
    }

    method BulkReviewOne(id: nat, decision: Decision) returns (done: bool)
      requires id < |candidates|
      modifies this
      ensures done <==> BulkStep(old(Snapshot()), id, decision).Some?
      ensures done ==> BulkStep(old(Snapshot()), id, decision) == Some(Snapshot())
    {
      if decision.Accept? {
        candidates := candidates[id := Signed(candidates[id], NoCode, decision.stamp).(status := Accepted)];
        var result := PromoteInSession(id);
        done := result.Some?;
      } else {
        candidates := candidates[id := Signed(candidates[id], decision.reason, decision.stamp).(status := Rejected)];
        done := true;
      }
    }

    /** The checks over the complete batch. */
    method CheckBatch(ids: seq<nat>, decision: Decision) returns (allowed: bool)
      ensures allowed <==> BulkAllowed(Snapshot(), ids, decision)
    {
      if ids == [] || |ids| > (if decision.Accept? then 20 else 100) || !ValidDecision(decision)
          || decision.RequestEvidence? {
        return false;
      }
      for k := 0 to |ids|
        invariant forall i :: 0 <= i < k ==> ids[i] < |candidates|
      {
        if ids[k] >= |candidates| {
          return false;
        }
      }
      for k := 0 to |ids|
        invariant forall i :: 0 <= i < k ==>
                    if decision.Accept? then BulkAcceptable(candidates[ids[i]])
                    else Rejectable(candidates[ids[i]].status)
      {
        var c := candidates[ids[k]];
        if !(if decision.Accept? then BulkAcceptable(c) else Rejectable(c.status)) {
          return false;
        }
      }
      allowed := true;
    }

    /** The loop over the hits of one search, in one transaction. */
    method DiscoverCandidates(mission: string, hits: seq<Hit>, maxVerify: nat)
      returns (verify: seq<nat>, created: nat, deduped: nat, skipped: nat, triaged: nat)
      modifies `candidates
      ensures Discovery(Snapshot(), verify, created, deduped, skipped, triaged)
           == AfterHits(old(Snapshot()), mission, hits, maxVerify)
    {
      ghost var s := Snapshot();
      verify, created, deduped, skipped, triaged := [], 0, 0, 0, 0;
      for k := 0 to |hits|
        invariant Discovery(Snapshot(), verify, created, deduped, skipped, triaged)
            == AfterHits(s, mission, hits[..k], maxVerify)
      {
        OneMoreHit(s, mission, hits, k, maxVerify);
        if hits[k].key == "" {
          skipped := skipped + 1;
          continue;
        }
        var id, isNew, chosen := DiscoverOne(mission, hits[k], |verify| < maxVerify);
        if isNew {
          created := created + 1;
          if !hits[k].isCompany {
            triaged := triaged + 1;
          }
        } else {
          deduped := deduped + 1;
        }
        if chosen {
          verify := verify + [id];
        }
      }
      assert hits[..|hits|] == hits;
    }

    /** Find or add the candidate of one hit, store the hit as evidence, and claim the candidate while there is
        budget. */
    method DiscoverOne(mission: string, hit: Hit, budgetLeft: bool) returns (id: nat, isNew: bool, chosen: bool)
      requires hit.key != ""
      modifies `candidates
      ensures Snapshot() == Next(old(Snapshot()), DiscoverHit(mission, hit, budgetLeft))
      ensures var found := FindByKey(old(candidates), mission, hit.key);
              && id == (if found.Some? then found.value else |old(candidates)|) && isNew == found.None?
              && var row := if found.Some? then old(candidates)[id] else NewFromHit(mission, hit);
                 chosen == (budgetLeft && row.status.Discovered? && row.isCompany)
    {
      ghost var before := candidates;
      var found := FindByKey(candidates, mission, hit.key);
      isNew := found.None?;
      id := if found.Some? then found.value else |candidates|;
      if isNew {
        candidates := candidates + [NewFromHit(mission, hit)];
      }
      ghost var row := candidates[id];
      var c := candidates[id];
      if FindContent(c.evidence, hit.url, hit.hash).None? {
        c := c.(evidence := c.evidence
          + [EvidenceRow(hit.url, hit.hash, {}, CandidateAssessment.TierD, CandidateAssessment.Unverified)]);
      }
      chosen := budgetLeft && c.status == Discovered && c.isCompany;
      if chosen {
        c := c.(status := Verifying);
      }
      candidates := candidates[id := c];
      assert c == HitStored(row, hit, budgetLeft);
      assert candidates == if found.Some? then before[id := c] else before + [c];
    }
  }
}
