/** What holds in every history of candidates and of the CRM: decisions, leads, promotions, acceptances and the
    discovery of candidates. */
module CandidateHistory {
  import opened Common
  import opened AcquisitionRows
  import opened CandidateEvidence
  import opened AssessmentRows
  import opened CandidateRows
  import opened CandidateLifecycle
  import CandidateScoring
  import CandidateAssessment

  // ---------------------------------------------------------------------------
  // What holds in every run
  // ---------------------------------------------------------------------------

  /** In every reachable state a candidate is promoted exactly when it points to a lead, none is left accepted,
      every eligible one has a confirmed country, and no writer ever stores a conflicting country. */
  lemma {:induction false} ReachableCandidates(actions: seq<Action>, id: nat)
    requires id < |Run(actions).candidates|
    ensures var c := Run(actions).candidates[id];
            && (c.status.Promoted? <==> c.promotedLead.Some?)
            && !c.status.Accepted?
            && (c.status.Eligible? ==> c.subject.country.Confirmed? && c.code == EligibleCode)
            && !c.subject.country.Conflicting? && !c.subject.country.Mismatch?
  {
    InvRun(actions);
  }

  /** In every reachable state a candidate has at most one lead made from it, namely the one it points to, and
      exactly one history entry if that lead exists and none otherwise. */
  lemma {:induction false} OneLeadPerCandidate(actions: seq<Action>, id: nat)
    requires id < |Run(actions).candidates|
    ensures var s := Run(actions); var c := s.candidates[id];
            && (forall i :: 0 <= i < |s.leads| && IsFrom(s.leads[i], id) ==> c.promotedLead == Some(i))
            && CountFor(s.activities, id) == if Linked(s.leads, c) then 1 else 0
  {
    InvRun(actions);
    var s := Run(actions);
    assert LinkOk(s, id);
    forall i | 0 <= i < |s.leads| && IsFrom(s.leads[i], id) ensures s.candidates[id].promotedLead == Some(i) {
      assert LeadOk(s.candidates, s.leads[i], i);
    }
  }

  /** The unique constraint on the candidate of a lead can never fire: a promotion that adds a lead finds none made
      from the same candidate. */
  lemma {:induction false} NewLeadIsUnique(actions: seq<Action>, id: nat)
    requires var s := Run(actions); id < |s.candidates| && PromoteIn(s, id).Promotion? && PromoteIn(s, id).createdLead
    ensures FindByCandidate(Run(actions).leads, id).None?
  {
    InvRun(actions);
    UnlinkedIsBlank(Run(actions), id);
  }

  // ---------------------------------------------------------------------------
  // Decisions are final
  // ---------------------------------------------------------------------------

  predicate MayFollow(before: CandidateStatus, after: CandidateStatus) {
    && (before.Rejected? ==> after.Rejected?)
    && (before.Promoted? ==> after.Promoted?)
    && (before.Accepted? ==> after.Accepted? || after.Promoted?)
  }

  lemma {:induction false} BulkLeavesOthers(s: State, ids: seq<nat>, d: Decision, k: nat)
    requires (forall i :: 0 <= i < |ids| ==> ids[i] < |s.candidates|) && k < |s.candidates| && k !in ids
    ensures BulkApplied(s, ids, d).Some? ==> BulkApplied(s, ids, d).value.candidates[k] == s.candidates[k]
  {
    if ids != [] { BulkLeavesOthers(s, ids[..|ids| - 1], d, k); }
  }

  lemma {:induction false} PromotionsAreFinal(s: State, a: Action, id: nat)
    requires id < |s.candidates| && Promoting(a)
    ensures id < |NextPromotion(s, a).candidates|
    ensures MayFollow(s.candidates[id].status, NextPromotion(s, a).candidates[id].status)
  {
    if a.BulkReview? && BulkReviewed(s, a.ids, a.decision).Some? && id !in Distinct(a.ids) {
      BulkLeavesOthers(s, Distinct(a.ids), a.decision, id);
    }
  }

  lemma {:induction false} UpsertDecidesNothing(s: State, a: Action, id: nat)
    requires id < |s.candidates| && Upserting(a)
    ensures id < |NextUpsert(s, a).candidates| && Undecided(s.candidates[id], NextUpsert(s, a).candidates[id])
  {
    UpsertedRow(s, a, id);
    ChangedKeeps(s.candidates[id], a);
  }

  lemma {:induction false} ChangeDecidesNothing(s: State, a: Action, id: nat)
    requires id < |s.candidates| && Changing(a)
    ensures id < |NextChange(s, a).candidates| && Undecided(s.candidates[id], NextChange(s, a).candidates[id])
  {
    ChangedRow(s, a, id);
    ChangedKeeps(s.candidates[id], a);
  }

  lemma {:induction false} OthersDecideNothing(s: State, a: Action, id: nat)
    requires id < |s.candidates| && !Promoting(a)
    ensures id < |Next(s, a).candidates| && Undecided(s.candidates[id], Next(s, a).candidates[id])
  {
    if Upserting(a) {
      UpsertDecidesNothing(s, a, id);
    } else if Changing(a) {
      ChangeDecidesNothing(s, a, id);
    } else {
      assert NextCrm(s, a).candidates == s.candidates;
    }
  }

  /** One transaction never takes a candidate out of rejected or promoted, and out of accepted only into promoted:
      in any state, reachable or not. */
  lemma {:induction false} DecisionsAreFinal(s: State, a: Action, id: nat)
    requires id < |s.candidates|
    ensures id < |Next(s, a).candidates| && MayFollow(s.candidates[id].status, Next(s, a).candidates[id].status)
  {
    if Promoting(a) { PromotionsAreFinal(s, a, id); } else { OthersDecideNothing(s, a, id); }
  }

  /** So a rejected or promoted candidate stays rejected or promoted to the end of every run. */
  lemma {:induction false} DecidedForever(actions: seq<Action>, n: nat, id: nat)
    requires n <= |actions| && id < |Run(actions[..n]).candidates|
    ensures id < |Run(actions).candidates|
    ensures MayFollow(Run(actions[..n]).candidates[id].status, Run(actions).candidates[id].status)
    decreases |actions|
  {
    if n == |actions| {
      assert actions[..n] == actions;
    } else {
      var front := actions[..|actions| - 1];
      assert front[..n] == actions[..n];
      DecidedForever(front, n, id);
      DecisionsAreFinal(Run(front), actions[|actions| - 1], id);
    }
  }

  // ---------------------------------------------------------------------------
  // Promoting again
  // ---------------------------------------------------------------------------

  lemma {:induction false} BulkKeepsLeads(s: State, ids: seq<nat>, d: Decision, lead: nat)
    requires (forall i :: 0 <= i < |ids| ==> ids[i] < |s.candidates|) && LeadAt(s.leads, lead).Some?
    ensures BulkApplied(s, ids, d).Some? ==> LeadAt(BulkApplied(s, ids, d).value.leads, lead).Some?
  {
    if ids != [] { BulkKeepsLeads(s, ids[..|ids| - 1], d, lead); }
  }

  lemma {:induction false} BulkKeepsLink(s: State, ids: seq<nat>, d: Decision, id: nat)
    requires Inv(s) && id < |s.candidates| && Linked(s.leads, s.candidates[id])
    ensures var s' := Or(BulkReviewed(s, ids, d), s);
            && id < |s'.candidates| && s'.candidates[id] == s.candidates[id]
            && LeadAt(s'.leads, s.candidates[id].promotedLead.value).Some?
  {
    assert CandidateOk(s.candidates[id]);
    if BulkReviewed(s, ids, d).Some? {
      assert id !in Distinct(ids);
      BulkLeavesOthers(s, Distinct(ids), d, id);
      BulkKeepsLeads(s, Distinct(ids), d, s.candidates[id].promotedLead.value);
    }
  }

  lemma {:induction false} PromotionsKeepLink(s: State, a: Action, id: nat)
    requires Inv(s) && id < |s.candidates| && Linked(s.leads, s.candidates[id]) && Promoting(a)
    ensures var s' := NextPromotion(s, a);
            && id < |s'.candidates| && s'.candidates[id].promotedLead == s.candidates[id].promotedLead
            && Linked(s'.leads, s'.candidates[id])
  {
    assert CandidateOk(s.candidates[id]);
    if a.BulkReview? { BulkKeepsLink(s, a.ids, a.decision, id); }
  }

  lemma {:induction false} CrmKeepsLead(s: State, a: Action, lead: nat)
    requires Outside(a) && LeadAt(s.leads, lead).Some? && a != DeleteLead(lead)
    ensures LeadAt(NextCrm(s, a).leads, lead).Some?
  {
  }

  lemma {:induction false} OthersKeepLeads(s: State, a: Action, lead: nat)
    requires !Promoting(a) && LeadAt(s.leads, lead).Some? && a != DeleteLead(lead)
    ensures LeadAt(Next(s, a).leads, lead).Some?
  {
    if Outside(a) { CrmKeepsLead(s, a, lead); }
  }

  /** Only deleting its lead unlinks a promoted candidate. */
  lemma {:induction false} LinkStays(s: State, a: Action, id: nat)
    requires Inv(s) && id < |s.candidates| && Linked(s.leads, s.candidates[id])
        && a != DeleteLead(s.candidates[id].promotedLead.value)
    ensures id < |Next(s, a).candidates| && Next(s, a).candidates[id].promotedLead == s.candidates[id].promotedLead
    ensures Linked(Next(s, a).leads, Next(s, a).candidates[id])
  {
    if Promoting(a) {
      PromotionsKeepLink(s, a, id);
    } else {
      OthersDecideNothing(s, a, id);
      OthersKeepLeads(s, a, s.candidates[id].promotedLead.value);
    }
  }

  function RunFrom(s: State, actions: seq<Action>): State
    decreases |actions|
  {
    if actions == [] then s else Next(RunFrom(s, actions[..|actions| - 1]), actions[|actions| - 1])
  }

  lemma {:induction false} StaysLinked(s: State, id: nat, actions: seq<Action>)
    requires Inv(s) && id < |s.candidates| && Linked(s.leads, s.candidates[id])
    requires DeleteLead(s.candidates[id].promotedLead.value) !in actions
    ensures Inv(RunFrom(s, actions)) && id < |RunFrom(s, actions).candidates|
    ensures RunFrom(s, actions).candidates[id].promotedLead == s.candidates[id].promotedLead
    ensures Linked(RunFrom(s, actions).leads, RunFrom(s, actions).candidates[id])
    decreases |actions|
  {
    if actions != [] {
      var front, last := actions[..|actions| - 1], actions[|actions| - 1];
      assert last in actions;
      StaysLinked(s, id, front);
      InvNext(RunFrom(s, front), last);
      LinkStays(RunFrom(s, front), last, id);
    }
  }

  /** Promoting a candidate again, after whatever else happened short of deleting its lead, adds no company, lead
      or history entry: it changes nothing and names the same lead. */
  lemma {:induction false} PromotingAgainAddsNothing(s: State, id: nat, between: seq<Action>)
    requires Inv(s) && id < |s.candidates| && PromoteIn(s, id).Promotion?
    requires DeleteLead(PromoteIn(s, id).lead) !in between
    ensures var first := PromoteIn(s, id);
            var s1 := RunFrom(first.state, between);
            id < |s1.candidates| && PromoteIn(s1, id) == Promotion(s1, first.lead, false, false)
  {
    PromoteKeeps(s, id);
    StaysLinked(PromoteIn(s, id).state, id, between);
  }

  // ---------------------------------------------------------------------------
  // Promotions and the country
  // ---------------------------------------------------------------------------

  /** Whether promoting the candidate now would write anything. */
  predicate Writes(s: State, id: nat) {
    id < |s.candidates| && PromoteIn(s, id).Promotion? && !Linked(s.leads, s.candidates[id])
  }

  /** A promotion that would write although the country is not confirmed. */
  predicate Unconfirmed(s: State, id: nat) {
    Writes(s, id) && !s.candidates[id].subject.country.Confirmed?
  }

  /** Promotion itself does not look at the country. A promotion that writes happens with a confirmed country
      whenever the candidate has not been promoted before; the only other writing promotion is that of a promoted
      candidate whose lead has been deleted. */
  lemma {:induction false} WritingPromotionIff(actions: seq<Action>, id: nat)
    requires id < |Run(actions).candidates|
    ensures var s := Run(actions); var c := s.candidates[id];
            && (Writes(s, id) <==>
                  c.crmDomain != "" && (c.status.Eligible? || (c.status.Promoted? && !Linked(s.leads, c))))
            && (Writes(s, id) && !c.status.Promoted? ==> c.subject.country.Confirmed?)
            && (Unconfirmed(s, id) <==>
                  c.crmDomain != "" && c.status.Promoted? && !Linked(s.leads, c) && !c.subject.country.Confirmed?)
  {
    InvRun(actions);
    assert CandidateOk(Run(actions).candidates[id]);
  }

  lemma {:induction false} BulkLinks(s: State, ids: seq<nat>, d: Decision, id: nat)
    requires (forall i :: 0 <= i < |ids| ==> ids[i] < |s.candidates|) && id in ids && d.Accept?
    requires forall i, j :: 0 <= i < j < |ids| ==> ids[i] != ids[j]
    ensures BulkApplied(s, ids, d).Some? ==>
              Linked(BulkApplied(s, ids, d).value.leads, BulkApplied(s, ids, d).value.candidates[id])
  {
    var front, last := ids[..|ids| - 1], ids[|ids| - 1];
    if last != id {
      BulkLinks(s, front, d, id);
    }
  }

  lemma {:induction false} BulkRejectSucceeds(s: State, ids: seq<nat>, d: Decision)
    requires (forall i :: 0 <= i < |ids| ==> ids[i] < |s.candidates|) && !d.Accept?
    ensures BulkApplied(s, ids, d).Some?
  {
    if ids != [] { BulkRejectSucceeds(s, ids[..|ids| - 1], d); }
  }

  lemma {:induction false} BulkRejects(s: State, ids: seq<nat>, d: Decision, id: nat)
    requires (forall i :: 0 <= i < |ids| ==> ids[i] < |s.candidates|) && id in ids && !d.Accept?
    ensures BulkApplied(s, ids, d).Some? && BulkApplied(s, ids, d).value.candidates[id].status.Rejected?
  {
    var front, last := ids[..|ids| - 1], ids[|ids| - 1];
    if id in front {
      BulkRejects(s, front, d, id);
    } else {
      BulkRejectSucceeds(s, front, d);
    }
  }

  lemma {:induction false} BulkPromotesLinked(s: State, ids: seq<nat>, d: Decision, id: nat)
    requires id < |s.candidates| && !s.candidates[id].status.Promoted?
    requires id < |Or(BulkReviewed(s, ids, d), s).candidates|
    requires Or(BulkReviewed(s, ids, d), s).candidates[id].status.Promoted?
    ensures Linked(Or(BulkReviewed(s, ids, d), s).leads, Or(BulkReviewed(s, ids, d), s).candidates[id])
  {
    var distinct := Distinct(ids);
    if id !in distinct {
      BulkLeavesOthers(s, distinct, d, id);
    } else if d.Accept? {
      BulkLinks(s, distinct, d, id);
    } else {
      BulkRejects(s, distinct, d, id);
    }
  }

  /** New rows have no lead. */
  lemma {:induction false} NewRowsHaveNoLead(s: State, a: Action, id: nat)
    requires !Promoting(a) && |s.candidates| <= id < |Next(s, a).candidates|
    ensures Next(s, a).candidates[id].promotedLead.None?
  {
    if Upserting(a) {
      InitialOk(a);
      ChangedKeeps(InitialOf(a), a);
    }
  }

  lemma {:induction false} PromotionsLink(s: State, a: Action, id: nat)
    requires Promoting(a) && id < |s.candidates| && !s.candidates[id].status.Promoted?
    requires id < |NextPromotion(s, a).candidates| && NextPromotion(s, a).candidates[id].status.Promoted?
    requires CandidateOk(s.candidates[id])
    ensures Linked(NextPromotion(s, a).leads, NextPromotion(s, a).candidates[id])
  {
    if a.BulkReview? { BulkPromotesLinked(s, a.ids, a.decision, id); }
  }

  lemma {:induction false} PromotionsAddNoRow(s: State, a: Action)
    requires Promoting(a)
    ensures |NextPromotion(s, a).candidates| == |s.candidates|
  {
  }

  lemma {:induction false} NewlyPromotedIsLinked(s: State, a: Action, id: nat)
    requires Inv(s) && id < |Next(s, a).candidates| && Next(s, a).candidates[id].status.Promoted?
    requires id < |s.candidates| ==> !s.candidates[id].status.Promoted?
    ensures Linked(Next(s, a).leads, Next(s, a).candidates[id])
  {
    assert id < |s.candidates| ==> CandidateOk(s.candidates[id]);
    if Promoting(a) {
      PromotionsAddNoRow(s, a);
      PromotionsLink(s, a, id);
    } else {
      assert CandidateOk(Next(s, a).candidates[id]) by { InvNext(s, a); }
      if id < |s.candidates| { OthersDecideNothing(s, a, id); } else { NewRowsHaveNoLead(s, a, id); }
    }
  }

  predicate Deletes(a: Action) {
    a.DeleteLead?
  }

  lemma {:induction false} PromotedAreLinked(actions: seq<Action>, id: nat)
    requires (forall i :: 0 <= i < |actions| ==> !Deletes(actions[i])) && id < |Run(actions).candidates|
    ensures Run(actions).candidates[id].status.Promoted? ==> Linked(Run(actions).leads, Run(actions).candidates[id])
    decreases |actions|
  {
    if actions != [] {
      var front, last := actions[..|actions| - 1], actions[|actions| - 1];
      var s := Run(front);
      InvRun(front);
      if id < |s.candidates| && s.candidates[id].status.Promoted? {
        PromotedAreLinked(front, id);
        assert !Deletes(last);
        LinkStays(s, last, id);
      } else if Run(actions).candidates[id].status.Promoted? {
        NewlyPromotedIsLinked(s, last, id);
      }
    }
  }

  /** Where no lead is deleted, every promotion that writes anything happens with a confirmed country, and every
      promoted candidate still has its lead. */
  lemma {:induction false} PromotionsAreConfirmed(actions: seq<Action>, id: nat)
    requires (forall i :: 0 <= i < |actions| ==> !Deletes(actions[i])) && id < |Run(actions).candidates|
    ensures var s := Run(actions); var c := s.candidates[id];
            && (c.status.Promoted? ==> Linked(s.leads, c))
            && (Writes(s, id) ==> c.status.Eligible? && c.subject.country.Confirmed?)
  {
    InvRun(actions);
    assert CandidateOk(Run(actions).candidates[id]);
    PromotedAreLinked(actions, id);
  }

  lemma {:induction false} RunExtends(actions: seq<Action>, a: Action)
    ensures Run(actions + [a]) == Next(Run(actions), a)
  {
    assert (actions + [a])[..|actions|] == actions;
  }

  lemma {:induction false} ImportChanges(c: Candidate, a: Action)
    requires a.ImportUrl?
    ensures Changed(c, a) == Imported(c, a.imported, a.target)
  {
  }

  lemma {:induction false} ImportActs(mission: string, key: string, f: Import, t: Target, c: Candidate)
    ensures var a := ImportUrl(mission, key, f, t);
            && Changed(c, a) == Imported(c, f, t) && InitialOf(a) == NewFromImport(mission, key) && KeyOf(a) == key
  {
    ImportChanges(c, ImportUrl(mission, key, f, t));
  }

  lemma {:induction false} FirstImport(mission: string, key: string, f: Import, t: Target)
    ensures Next(EMPTY, ImportUrl(mission, key, f, t))
        == EMPTY.(candidates := [Imported(NewFromImport(mission, key), f, t)])
  {
    var a := ImportUrl(mission, key, f, t);
    ImportActs(mission, key, f, t, NewFromImport(mission, key));
    assert FindByKey(EMPTY.candidates, mission, key) == None;
    assert Upserting(a) && Next(EMPTY, a) == NextUpsert(EMPTY, a);
  }

  function OnePromoted(c: Candidate): State {
    State([c.(status := Promoted, promotedLead := Some(0))], map[c.crmDomain := 0],
          [Some(NewLead(c, 0, 0))], [Activity(0, 0)])
  }

  lemma {:induction false} FirstPromotion(c: Candidate)
    requires c.status.Eligible? && c.promotedLead.None? && c.crmDomain != ""
    ensures Next(EMPTY.(candidates := [c]), Promote(0)) == OnePromoted(c)
  {
    assert LeadFor([], c, 0) == None;
  }

  lemma {:induction false} AfterDeletion(c: Candidate)
    ensures var s := Next(OnePromoted(c), DeleteLead(0));
            && s.candidates == OnePromoted(c).candidates && s.leads == [None]
            && s.companies == OnePromoted(c).companies
  {
  }

  lemma {:induction false} ImportOverOnly(s: State, c: Candidate, mission: string, key: string, f: Import, t: Target)
    requires s.candidates == [c] && HasKey(c, mission, key)
    ensures Next(s, ImportUrl(mission, key, f, t)) == s.(candidates := [Imported(c, f, t)])
  {
    ImportActs(mission, key, f, t, c);
    assert FindByKey(s.candidates, mission, key) == Some(0);
    assert s.candidates[0 := Imported(c, f, t)] == [Imported(c, f, t)];
  }

  lemma {:induction false} NewIsNotRefused(c: Candidate, f: Import, t: Target)
    requires c.assessments == []
    ensures !ImportRefused(c, f, t)
  {
  }

  function FirstVersion(c: Candidate, f: Import, t: Target): AssessmentRow {
    var c1 := WithImport(c, f);
    AssessmentRow(Extracted(f.provenance), Bundle(c1.evidence), ComputationOf(c1, t), f.at)
  }

  lemma {:induction false} FirstImported(c: Candidate, f: Import, t: Target)
    requires c.assessments == []
    ensures var c' := Imported(c, f, t);
            && c'.assessments == [FirstVersion(c, f, t)] && c'.evidence == WithImportedPages(c.evidence, f.pages)
            && c'.subject == WithImport(c, f).subject && c'.crmDomain == f.facts.crmDomain
  {
    NewIsNotRefused(c, f, t);
  }

  lemma {:induction false} ImportWithoutCountry(c: Candidate, g: Import, u: Target)
    requires g.facts.countryCode.None?
    ensures ComputationOf(WithImport(c, g), u).input.countryMatch.None?
  {
  }

  lemma {:induction false} OnlyVersionRefusesIff(c: Candidate, row: AssessmentRow, g: Import, u: Target)
    requires c.assessments == [row] && row.computed.input.countryMatch.Some? && g.facts.countryCode.None?
    ensures ImportRefused(c, g, u) <==>
            IsVersion(row, Extracted(g.provenance), Bundle(WithImportedPages(c.evidence, g.pages)))
  {
    ImportWithoutCountry(c, g, u);
  }

  /** The second import commits exactly if it is of another provenance or brings a new page: otherwise it meets the
      stored assessment of the same version, which was computed with a country. */
  lemma {:induction false} SecondImportRefusedIff(c: Candidate, f: Import, t: Target, g: Import, u: Target)
    requires WithImport(c, f).subject.country.Confirmed? && c.evidence == [] && c.assessments == []
    requires g.facts.countryCode.None?
    ensures var promoted := Imported(c, f, t).(status := Promoted, promotedLead := Some(0));
            ImportRefused(promoted, g, u) <==> g.provenance == f.provenance && !NewContent(f.pages, g.pages)
  {
    FirstImported(c, f, t);
    BundleChangesIff(f.pages, g.pages);
    OnlyVersionRefusesIff(Imported(c, f, t).(status := Promoted, promotedLead := Some(0)), FirstVersion(c, f, t), g, u);
  }

  lemma {:induction false} SubjectOfImport(c: Candidate, g: Import, u: Target)
    requires !ImportRefused(c, g, u)
    ensures Imported(c, g, u).subject == WithImport(c, g).subject && Imported(c, g, u).crmDomain == g.facts.crmDomain
  {
  }

  lemma {:induction false} UnconfirmedIff(s: State, c: Candidate)
    requires s.candidates == [c] && s.leads == [None]
    requires c.status.Promoted? && c.promotedLead == Some(0) && c.crmDomain != ""
    ensures Unconfirmed(s, 0) <==> !c.subject.country.Confirmed?
  {
  }

  lemma {:induction false} LeadGoneIff(c: Candidate, mission: string, key: string, g: Import, u: Target)
    requires c.status.Promoted? && c.promotedLead == Some(0) && c.crmDomain != "" && HasKey(c, mission, key)
    requires c.subject.country.Confirmed? && g.facts.countryCode.None? && g.facts.crmDomain != ""
    ensures Unconfirmed(Next(Next(OnePromoted(c), DeleteLead(0)), ImportUrl(mission, key, g, u)), 0) <==>
            !ImportRefused(c, g, u)
  {
    var s3 := Next(OnePromoted(c), DeleteLead(0));
    var c' := Imported(c, g, u);
    AfterDeletion(c);
    assert OnePromoted(c).candidates == [c];
    ImportOverOnly(s3, c, mission, key, g, u);
    if !ImportRefused(c, g, u) {
      SubjectOfImport(c, g, u);
      ImportedKeeps(c, g, u);
    }
    UnconfirmedIff(s3.(candidates := [c']), c');
  }

  lemma {:induction false} FirstImportPromoted(mission: string, key: string, f: Import, t: Target)
    requires f.facts.crmDomain != "" && Imported(NewFromImport(mission, key), f, t).status.Eligible?
    ensures var c := Imported(NewFromImport(mission, key), f, t);
            && Run([] + [ImportUrl(mission, key, f, t)] + [Promote(0)]) == OnePromoted(c)
            && HasKey(c, mission, key) && c.subject.country.Confirmed? && c.crmDomain == f.facts.crmDomain
            && WithImport(NewFromImport(mission, key), f).subject.country.Confirmed?
  {
    var none: seq<Action> := [];
    var added, a := NewFromImport(mission, key), ImportUrl(mission, key, f, t);
    RunExtends(none, a);
    RunExtends(none + [a], Promote(0));
    FirstImport(mission, key, f, t);
    ImportedOk(added, f, t);
    ImportedKeeps(added, f, t);
    FirstImported(added, f, t);
    FirstPromotion(Imported(added, f, t));
  }

  /** That exception is real: import a page with a country, promote, delete the lead, import the company again without
      a country. Whatever the eligible company was, its next promotion writes a new lead with an unknown country,
      exactly if the second import is of another provenance or brings a page that the first did not. */
  lemma {:induction false} RePromotionLosesCountryIff(mission: string, key: string, f: Import, t: Target, g: Import,
      u: Target)
    requires f.facts.crmDomain != "" && Imported(NewFromImport(mission, key), f, t).status.Eligible?
    requires g.facts.countryCode.None? && g.facts.crmDomain != ""
    ensures var actions := [] + [ImportUrl(mission, key, f, t)] + [Promote(0)] + [DeleteLead(0)]
                           + [ImportUrl(mission, key, g, u)];
            Unconfirmed(Run(actions), 0) <==> g.provenance != f.provenance || NewContent(f.pages, g.pages)
  {
    var first := [] + [ImportUrl(mission, key, f, t)] + [Promote(0)];
    var c := Imported(NewFromImport(mission, key), f, t);
    FirstImportPromoted(mission, key, f, t);
    RunExtends(first, DeleteLead(0));
    RunExtends(first + [DeleteLead(0)], ImportUrl(mission, key, g, u));
    var promoted := c.(status := Promoted, promotedLead := Some(0));
    assert OnePromoted(promoted) == OnePromoted(c);
    LeadGoneIff(promoted, mission, key, g, u);
    SecondImportRefusedIff(NewFromImport(mission, key), f, t, g, u);
  }

  lemma {:induction false} OpenGate(s: Subject, t: Target)
    requires s.country.Confirmed? && t.targetCountries == {} && t.expectedBuyers == {} && !t.excluded
    requires s.buyerType != "" && s.companyName != "" && s.domain != "" && s.claims != [] && s.email != ""
    ensures CandidateScoring.GateOf(CandidateAssessment.FactsOf(s, t)).disposition.Eligible?
  {
    CandidateAssessment.EligibleIff(s, t, []);
  }

  lemma {:induction false} ImportedSubject(c: Candidate, f: Import)
    ensures var s, facts := WithImport(c, f).subject, f.facts;
            && (s.country.Confirmed? <==> facts.countryCode.Some?)
            && s.buyerType == facts.buyerType && s.companyName == facts.companyName
            && s.domain == facts.domain && s.claims == facts.claims && s.email == facts.email
  {
  }

  lemma {:induction false} ConcludedStatus(c: Candidate, t: Target, p: Provenance, at: Time)
    requires !Decided(c.status)
    ensures Concluded(c, t, p, at).status == StatusOf(ComputationOf(c, t).gate.disposition)
  {
  }

  /** There are such companies: such an import makes any undecided candidate eligible unless it is refused, because a
      stored assessment of the same version was computed from something else; a new candidate never refuses it. */
  lemma {:induction false} SomeImportIsEligible(c: Candidate, f: Import, t: Target)
    requires !Decided(c.status)
    requires f.facts.countryCode.Some? && f.facts.buyerType != "" && f.facts.companyName != "" && f.facts.domain != ""
    requires f.facts.claims != [] && f.facts.email != ""
    requires t.targetCountries == {} && t.expectedBuyers == {} && !t.excluded
    ensures if ImportRefused(c, f, t) then Imported(c, f, t) == c else Imported(c, f, t).status.Eligible?
    ensures c.assessments == [] ==> !ImportRefused(c, f, t)
  {
    var c' := WithImport(c, f);
    ImportedSubject(c, f);
    OpenGate(c'.subject, t);
    assert c'.status == c.status;
    ConcludedStatus(c', t, f.provenance, f.at);
    if c.assessments == [] { NewIsNotRefused(c, f, t); }
  }

  // ---------------------------------------------------------------------------
  // When a review commits
  // ---------------------------------------------------------------------------

  predicate Acceptable(s: State, id: nat) {
    id < |s.candidates| && s.candidates[id].status.Eligible? && s.candidates[id].crmDomain != ""
  }

  lemma {:induction false} AcceptCommitsIff(s: State, id: nat, reason: Code, stamp: Stamp)
    requires Inv(s)
    ensures var r := Reviewed(s, id, Accept(reason, stamp));
            && (r.Some? <==> !CountryOpen(reason) && Acceptable(s, id))
            && (r.Some? ==>
                  && PromoteIn(s, id).Promotion? && r.value == SignedPromotion(PromoteIn(s, id), id, stamp).state
                  && r.value.candidates[id].status.Promoted? && r.value.candidates[id].stamp == Some(stamp))
  {
    if id < |s.candidates| && s.candidates[id].status.Eligible? {
      assert CandidateOk(s.candidates[id]);
      AcceptIsPromote(s, id, stamp);
    }
  }

  /** Accepting commits exactly for an eligible candidate with a domain; the separate country checks never refuse
      one. It then is the signed promotion of that candidate. */
  lemma {:induction false} AcceptIff(actions: seq<Action>, id: nat, reason: Code, stamp: Stamp)
    ensures var s := Run(actions); var r := Reviewed(s, id, Accept(reason, stamp));
            && (r.Some? <==> !CountryOpen(reason) && Acceptable(s, id))
            && (r.Some? ==>
                  && PromoteIn(s, id).Promotion? && r.value == SignedPromotion(PromoteIn(s, id), id, stamp).state
                  && r.value.candidates[id].status.Promoted? && r.value.candidates[id].stamp == Some(stamp))
  {
    InvRun(actions);
    AcceptCommitsIff(Run(actions), id, reason, stamp);
  }

  predicate AllAcceptable(s: State, ids: seq<nat>) {
    forall i :: 0 <= i < |ids| ==> Acceptable(s, ids[i])
  }

  lemma {:induction false} AllAcceptableSplit(s: State, ids: seq<nat>)
    requires ids != []
    ensures AllAcceptable(s, ids) <==> AllAcceptable(s, ids[..|ids| - 1]) && Acceptable(s, ids[|ids| - 1])
  {
  }

  lemma {:induction false} LastAccept(s: State, s1: State, id: nat, d: Decision)
    requires Inv(s1) && id < |s.candidates| == |s1.candidates| && s1.candidates[id] == s.candidates[id]
    requires d.Accept? && s.candidates[id].status.Eligible?
    ensures BulkStep(s1, id, d).Some? <==> Acceptable(s, id)
  {
    assert CandidateOk(s1.candidates[id]);
    AcceptIsPromote(s1, id, d.stamp);
  }

  lemma {:induction false} BulkAcceptSucceeds(s: State, ids: seq<nat>, d: Decision)
    requires Inv(s) && d.Accept? && (ids != [] ==> BulkAllowed(s, ids, d))
    requires forall i, j :: 0 <= i < j < |ids| ==> ids[i] != ids[j]
    ensures BulkApplied(s, ids, d).Some? <==> AllAcceptable(s, ids)
  {
    if ids != [] {
      var front, id := ids[..|ids| - 1], ids[|ids| - 1];
      BulkAllowedFront(s, ids, d);
      BulkAcceptSucceeds(s, front, d);
      AllAcceptableSplit(s, ids);
      if BulkApplied(s, front, d).Some? {
        BulkIsSequential(s, front, d);
        assert id !in front;
        LastAccept(s, BulkApplied(s, front, d).value, id, d);
      }
    }
  }

  lemma {:induction false} BulkPromotes(s: State, ids: seq<nat>, d: Decision, k: nat)
    requires (forall i :: 0 <= i < |ids| ==> ids[i] < |s.candidates|) && d.Accept? && k in ids
        && s.candidates[k].promotedLead.None?
    requires forall i, j :: 0 <= i < j < |ids| ==> ids[i] != ids[j]
    ensures BulkApplied(s, ids, d).Some? ==> BulkApplied(s, ids, d).value.candidates[k].status.Promoted?
  {
    var front, last := ids[..|ids| - 1], ids[|ids| - 1];
    if last != k {
      BulkPromotes(s, front, d, k);
    } else {
      BulkLeavesOthers(s, front, d, k);
    }
  }

  /** A bulk acceptance is all or nothing: it commits exactly when there are 1 to 20 distinct candidates, each of
      which a single acceptance would accept; it then promotes every one of them, touches no other candidate and
      leaves what the single acceptances leave one after the other. */
  lemma {:induction false} BulkAcceptIff(actions: seq<Action>, ids: seq<nat>, reason: Code, stamp: Stamp)
    ensures var s := Run(actions); var distinct := Distinct(ids); var r := BulkReviewed(s, ids, Accept(reason, stamp));
            && (r.Some? <==> !CountryOpen(reason) && 1 <= |distinct| <= 20 && AllAcceptable(s, distinct))
            && (r.Some? ==>
                  && |r.value.candidates| == |s.candidates|
                  && (forall k :: 0 <= k < |s.candidates| ==>
                        if k in ids then r.value.candidates[k].status.Promoted?
                        else r.value.candidates[k] == s.candidates[k])
                  && r == Sequential(s, distinct, Accept(reason, stamp)))
  {
    InvRun(actions);
    var s, distinct, d := Run(actions), Distinct(ids), Accept(reason, stamp);
    if ValidDecision(d) && 1 <= |distinct| <= 20 && AllAcceptable(s, distinct) {
      forall i | 0 <= i < |distinct| ensures distinct[i] < |s.candidates| && BulkAcceptable(s.candidates[distinct[i]]) {
        assert Acceptable(s, distinct[i]);
        assert CandidateOk(s.candidates[distinct[i]]);
      }
    }
    if BulkAllowed(s, distinct, d) {
      BulkAcceptSucceeds(s, distinct, d);
      BulkIsSequential(s, distinct, d);
      forall k | 0 <= k < |s.candidates| && k in ids && BulkApplied(s, distinct, d).Some?
        ensures BulkApplied(s, distinct, d).value.candidates[k].status.Promoted?
      {
        assert CandidateOk(s.candidates[k]);
        BulkPromotes(s, distinct, d, k);
      }
    }
  }

  // ---------------------------------------------------------------------------
  // The loop over the hits of a search
  // ---------------------------------------------------------------------------

  datatype Discovery = Discovery(state: State, verify: seq<nat>, created: nat, deduped: nat, skipped: nat, triaged: nat)

  /** One turn of the loop; a hit without a usable domain has the empty key. */
  function AfterHit(d: Discovery, mission: string, hit: Hit, maxVerify: nat): Discovery {
    if hit.key == "" then d.(skipped := d.skipped + 1)
    else
      var found := FindByKey(d.state.candidates, mission, hit.key);
      var id := if found.Some? then found.value else |d.state.candidates|;
      var row := if found.Some? then d.state.candidates[id] else NewFromHit(mission, hit);
      var chosen := |d.verify| < maxVerify && row.status.Discovered? && row.isCompany;
      Discovery(NextUpsert(d.state, DiscoverHit(mission, hit, |d.verify| < maxVerify)),
                if chosen then d.verify + [id] else d.verify,
                d.created + (if found.None? then 1 else 0), d.deduped + (if found.Some? then 1 else 0), d.skipped,
                d.triaged + (if found.None? && !hit.isCompany then 1 else 0))
  }

  function AfterHits(s: State, mission: string, hits: seq<Hit>, maxVerify: nat): Discovery {
    if hits == [] then Discovery(s, [], 0, 0, 0, 0)
    else AfterHit(AfterHits(s, mission, hits[..|hits| - 1], maxVerify), mission, hits[|hits| - 1], maxVerify)
  }

  predicate Chosen(s: State, id: nat) {
    id < |s.candidates| && s.candidates[id].status.Verifying? && s.candidates[id].isCompany
  }

  ghost predicate DiscoveryOk(d: Discovery, hits: nat, before: nat, maxVerify: nat) {
    && d.created + d.deduped + d.skipped == hits && d.triaged <= d.created
    && |d.state.candidates| == before + d.created
    && |d.verify| <= maxVerify
    && (forall i :: 0 <= i < |d.verify| ==> Chosen(d.state, d.verify[i]))
    && (forall i, j :: 0 <= i < j < |d.verify| ==> d.verify[i] != d.verify[j])
  }

  lemma {:induction false} HitKeepsChosen(s: State, mission: string, hit: Hit, budgetLeft: bool, id: nat)
    requires Chosen(s, id)
    ensures Chosen(NextUpsert(s, DiscoverHit(mission, hit, budgetLeft)), id)
  {
  }

  lemma {:induction false} OneHitCounts(d: Discovery, mission: string, hit: Hit, hits: nat, before: nat, maxVerify: nat)
    requires DiscoveryOk(d, hits, before, maxVerify)
    ensures DiscoveryOk(AfterHit(d, mission, hit, maxVerify), hits + 1, before, maxVerify)
  {
    var d' := AfterHit(d, mission, hit, maxVerify);
    forall i | 0 <= i < |d.verify| ensures Chosen(d.state, d.verify[i]) && Chosen(d'.state, d.verify[i]) {
      assert Chosen(d.state, d.verify[i]);
      HitKeepsChosen(d.state, mission, hit, |d.verify| < maxVerify, d.verify[i]);
    }
  }

  /** Every hit is counted once, every created candidate is one new row, and the candidates to verify are distinct,
      at most as many as the budget allows, all companies and all marked as being verified. */
  lemma {:induction false} DiscoveryCounts(s: State, mission: string, hits: seq<Hit>, maxVerify: nat)
    ensures DiscoveryOk(AfterHits(s, mission, hits, maxVerify), |hits|, |s.candidates|, maxVerify)
  {
    if hits != [] {
      var front := hits[..|hits| - 1];
      DiscoveryCounts(s, mission, front, maxVerify);
      OneHitCounts(AfterHits(s, mission, front, maxVerify), mission, hits[|hits| - 1], |front|, |s.candidates|,
          maxVerify);
    }
  }
}
