/** What promotions and reviews leave in the CRM, in terms of the stored rows. */
module PromotionMeaning {
  import opened Common
  import opened AcquisitionRows
  import opened AssessmentRows
  import opened CandidateRows
  import opened CandidateLifecycle
  import CandidateScoring

  // ---------------------------------------------------------------------------
  // Promotion
  // ---------------------------------------------------------------------------

  /** The candidate points to a lead that is still there. */
  predicate HasLead(s: State, c: Candidate) {
    c.promotedLead.Some? && c.promotedLead.value < |s.leads| && s.leads[c.promotedLead.value].Some?
  }

  ghost predicate EmailTaken(leads: seq<Option<Lead>>, email: string) {
    exists i :: 0 <= i < |leads| && leads[i].Some? && leads[i].value.email == email
  }

  ghost predicate MadeFrom(leads: seq<Option<Lead>>, id: nat) {
    exists i :: 0 <= i < |leads| && leads[i].Some? && leads[i].value.candidate == Some(id)
  }

  /** A candidate is promoted exactly if it is eligible, accepted or promoted and has a lead or a domain; if it has a
      lead nothing changes. */
  lemma {:induction false} PromotionIff(s: State, id: nat)
    requires id < |s.candidates|
    ensures var c, p := s.candidates[id], PromoteIn(s, id);
            var allowed := c.status == Eligible || c.status == Accepted || c.status == CandidateStatus.Promoted;
            && (p.Promotion? <==> allowed && (HasLead(s, c) || c.crmDomain != ""))
            && (allowed && HasLead(s, c) ==> p == Promotion(s, c.promotedLead.value, false, false))
  {
  }

  /** What a promotion that writes leaves behind. */
  ghost predicate Wrote(s: State, id: nat, p: Promotion)
    requires id < |s.candidates| && p.Promotion?
  {
    var c, after := s.candidates[id], p.state;
    && (p.createdCompany <==> c.crmDomain !in s.companies)
    && c.crmDomain in after.companies
    && after.companies == (if p.createdCompany then s.companies[c.crmDomain := |s.companies|] else s.companies)
    && (p.createdLead <==>
        if c.crmEmail != "" then !EmailTaken(s.leads, c.crmEmail) else !MadeFrom(s.leads, id))
    && p.lead < |after.leads| && after.leads[p.lead].Some?
    && (c.crmEmail != "" ==> after.leads[p.lead].value.email == c.crmEmail)
    && (c.crmEmail == "" ==> after.leads[p.lead].value.candidate == Some(id))
    && (!p.createdLead ==> after.leads == s.leads)
    && (p.createdLead ==>
          && p.lead == |s.leads| && after.leads == s.leads + [after.leads[p.lead]]
          && var lead := after.leads[p.lead].value;
          && lead.email == c.crmEmail && lead.candidate == Some(id)
          && lead.company == Some(after.companies[c.crmDomain])
          && lead.scores.priority == c.columns.priority && lead.scores.band == c.columns.band)
    && after.candidates
       == s.candidates[id := c.(status := CandidateStatus.Promoted, promotedLead := Some(p.lead))]
    && after.activities == s.activities + [Activity(p.lead, id)]
  }

  /** A promotion that writes finds the company by its domain and the lead by its e-mail, or, without one, by the
      candidate; it adds whichever it does not find, and keeps every earlier lead as it is. */
  lemma {:induction false} PromotionWrites(s: State, id: nat)
    requires id < |s.candidates| && PromoteIn(s, id).Promotion? && !HasLead(s, s.candidates[id])
    ensures Wrote(s, id, PromoteIn(s, id))
  {
    var c := s.candidates[id];
    var found := LeadFor(s.leads, c, id);
    if found.None? {
      if c.crmEmail != "" {
        assert forall i :: 0 <= i < |s.leads| ==> !HasEmail(s.leads[i], c.crmEmail);
      } else {
        assert forall i :: 0 <= i < |s.leads| ==> !IsFrom(s.leads[i], id);
      }
    }
  }

  /** The other scores of a new lead are those of the latest assessment of its candidate, which it names. */
  lemma {:induction false} NewLeadScores(c: Candidate, id: nat, company: nat)
    ensures var scores, latest := NewLead(c, id, company).scores, Latest(c.assessments);
            && scores.assessment == latest
            && (latest.None? ==> scores.fit.None? && scores.intent.None? && scores.quality.None?)
            && (latest.Some? && ScoreOf(c.assessments[latest.value].computed).Scored? ==>
                  var r := ScoreOf(c.assessments[latest.value].computed).result;
                  scores.fit == r.fit && scores.intent == r.intent && scores.quality == r.quality)
  {
  }

  // ---------------------------------------------------------------------------
  // Reviews
  // ---------------------------------------------------------------------------

  predicate CountryReason(code: Code) {
    code == Because(CandidateScoring.CountryUnknown) || code == Because(CandidateScoring.CountryConflicting)
  }

  function SignedBy(c: Candidate, reason: Code, stamp: Stamp): Candidate {
    c.(decisionReason := reason, stamp := Some(stamp))
  }

  /** A rejection needs a reason and an eligible candidate or one that needs evidence; a request for evidence needs a
      reason and an eligible candidate or one being verified. Both sign the row. */
  lemma {:induction false} RefusalsMean(s: State, id: nat, reason: Code, stamp: Stamp)
    requires id < |s.candidates|
    ensures var c := s.candidates[id];
            && Reviewed(s, id, Reject(reason, stamp))
               == (if reason != NoCode && (c.status == Eligible || c.status == NeedsEvidence)
                   then Some(s.(candidates := s.candidates[id := SignedBy(c, reason, stamp).(status := Rejected)]))
                   else None)
            && Reviewed(s, id, RequestEvidence(reason, stamp))
               == (if reason != NoCode && (c.status == Eligible || c.status == Verifying)
                   then Some(s.(candidates := s.candidates[id :=
                          SignedBy(c, reason, stamp).(status := NeedsEvidence, code := reason)]))
                   else None)
  {
  }

  /** In any state an acceptance needs an eligible candidate with a known country, no reason that leaves the country
      open, neither given nor stored, and the promotion of the signed row; it is that promotion. */
  lemma {:induction false} AcceptanceMeans(s: State, id: nat, reason: Code, stamp: Stamp)
    requires id < |s.candidates|
    ensures var c := s.candidates[id];
            var signed := s.(candidates := s.candidates[id := SignedBy(c, NoCode, stamp).(status := Accepted)]);
            var allowed := !CountryReason(reason) && c.status == Eligible && !CountryReason(c.code)
                           && c.subject.country != CandidateScoring.UnknownCountry
                           && c.subject.country != CandidateScoring.Conflicting;
            Reviewed(s, id, Accept(reason, stamp))
            == if allowed && PromoteIn(signed, id).Promotion? then Some(PromoteIn(signed, id).state) else None
  {
  }

  /** In any state a bulk acceptance needs 1 to 20 different eligible candidates of confirmed country. */
  lemma {:induction false} BulkAcceptanceNeeds(s: State, ids: seq<nat>, reason: Code, stamp: Stamp)
    requires BulkReviewed(s, ids, Accept(reason, stamp)).Some?
    ensures !CountryReason(reason) && 1 <= |Distinct(ids)| <= 20
    ensures forall id :: id in ids ==>
              && id < |s.candidates| && s.candidates[id].status == Eligible
              && s.candidates[id].subject.country == CandidateScoring.Confirmed
              && !CountryReason(s.candidates[id].code)
  {
    var distinct := Distinct(ids);
    forall id | id in ids
      ensures id < |s.candidates| && BulkAcceptable(s.candidates[id])
    {
      var i :| 0 <= i < |distinct| && distinct[i] == id;
    }
  }

  /** No candidate, no review. */
  lemma {:induction false} NoCandidateNoReview(s: State, id: nat, d: Decision)
    requires id >= |s.candidates|
    ensures Reviewed(s, id, d).None?
  {
  }

  predicate CanReject(s: State, id: nat) {
    id < |s.candidates| && (s.candidates[id].status == Eligible || s.candidates[id].status == NeedsEvidence)
  }

  function RejectedRow(c: Candidate, reason: Code, stamp: Stamp): Candidate {
    SignedBy(c, reason, stamp).(status := Rejected)
  }

  lemma {:induction false} BulkRejectsAll(s: State, ids: seq<nat>, reason: Code, stamp: Stamp)
    requires forall i :: 0 <= i < |ids| ==> ids[i] < |s.candidates|
    ensures var r := BulkApplied(s, ids, Reject(reason, stamp));
            && r.Some? && r.value == s.(candidates := r.value.candidates)
            && |r.value.candidates| == |s.candidates|
            && forall k :: 0 <= k < |s.candidates| ==>
                 r.value.candidates[k]
                 == if k in ids then RejectedRow(s.candidates[k], reason, stamp) else s.candidates[k]
  {
    if ids != [] {
      BulkRejectsAll(s, ids[..|ids| - 1], reason, stamp);
    }
  }

  /** A bulk rejection needs a reason and 1 to 100 different candidates, each of which a single one would reject; it
      rejects and signs all of them and touches nothing else. */
  lemma {:induction false} BulkRejectionMeans(s: State, ids: seq<nat>, reason: Code, stamp: Stamp)
    ensures var r, distinct := BulkReviewed(s, ids, Reject(reason, stamp)), Distinct(ids);
            && (r.Some? <==> reason != NoCode && 1 <= |distinct| <= 100 && forall id :: id in ids ==> CanReject(s, id))
            && (r.Some? ==>
                  && r.value == s.(candidates := r.value.candidates) && |r.value.candidates| == |s.candidates|
                  && forall k :: 0 <= k < |s.candidates| ==>
                       r.value.candidates[k]
                       == if k in ids then RejectedRow(s.candidates[k], reason, stamp) else s.candidates[k])
  {
    var distinct, d := Distinct(ids), Reject(reason, stamp);
    if BulkAllowed(s, distinct, d) {
      BulkRejectsAll(s, distinct, reason, stamp);
      forall id | id in ids ensures CanReject(s, id) {
        assert id in distinct;
      }
    }
    if forall id :: id in ids ==> CanReject(s, id) {
      forall i | 0 <= i < |distinct| ensures CanReject(s, distinct[i]) {
        assert distinct[i] in distinct;
      }
    }
  }

  // ---------------------------------------------------------------------------
  // What the CRM does by itself
  // ---------------------------------------------------------------------------

  lemma {:induction false} WithoutMeans(activities: seq<Activity>, lead: nat)
    ensures forall a :: a in Without(activities, lead) <==> a in activities && a.lead != lead
  {
    if activities != [] {
      var front, last := activities[..|activities| - 1], activities[|activities| - 1];
      WithoutMeans(front, lead);
      assert activities == front + [last];
    }
  }

  /** Deleting a lead takes its history with it; leads and companies are added and edited freely, a domain once. */
  lemma {:induction false} CrmMeans(s: State, lead: nat, email: string, domain: string)
    ensures Next(s, AddLead(email)) == s.(leads := s.leads + [Some(Lead(email, None, None, NO_SCORES))])
    ensures Next(s, AddCompany(domain))
         == if domain in s.companies then s else s.(companies := s.companies[domain := |s.companies|])
    ensures var found, edited := lead < |s.leads| && s.leads[lead].Some?, Next(s, EditLead(lead, email));
            edited == if found then s.(leads := s.leads[lead := Some(s.leads[lead].value.(email := email))]) else s
    ensures var found, left := lead < |s.leads| && s.leads[lead].Some?, Next(s, DeleteLead(lead));
            && (!found ==> left == s)
            && (found ==>
                  && left.leads == s.leads[lead := None] && left.candidates == s.candidates
                  && left.companies == s.companies
                  && forall a :: a in left.activities <==> a in s.activities && a.lead != lead)
  {
    WithoutMeans(s.activities, lead);
  }
}
