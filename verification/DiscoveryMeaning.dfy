/** What the loop over the hits of a search leaves behind, in terms of the hits and of the stored rows. */
module DiscoveryMeaning {
  import opened Common
  import opened AcquisitionRows
  import opened CandidateEvidence
  import opened CandidateRows
  import opened CandidateLifecycle
  import opened CandidateHistory
  import opened CandidateMeaning
  import CandidateAssessment

  // ---------------------------------------------------------------------------
  // One turn
  // ---------------------------------------------------------------------------

  /** The hit is stored as evidence, and its candidate is claimed. */
  function Seen(c: Candidate, hit: Hit, claimed: bool): Candidate {
    var row := EvidenceRow(hit.url, hit.hash, {}, CandidateAssessment.TierD, CandidateAssessment.Unverified);
    c.(evidence := if HasContent(c.evidence, hit.url, hit.hash) then c.evidence else c.evidence + [row],
       status := if claimed then Verifying else c.status)
  }

  predicate Claims(d: Discovery, c: Candidate, maxVerify: nat) {
    |d.verify| < maxVerify && c.status == Discovered && c.isCompany
  }

  lemma {:induction false} SeenIs(c: Candidate, hit: Hit, budgetLeft: bool)
    ensures HitStored(c, hit, budgetLeft) == Seen(c, hit, budgetLeft && c.status == Discovered && c.isCompany)
  {
    HitMeans(c, hit, budgetLeft);
    RowMeans(c.evidence,
             EvidenceRow(hit.url, hit.hash, {}, CandidateAssessment.TierD, CandidateAssessment.Unverified));
  }

  /** A hit without a domain is skipped. */
  lemma {:induction false} SkippedHit(d: Discovery, mission: string, hit: Hit, maxVerify: nat)
    requires hit.key == ""
    ensures AfterHit(d, mission, hit, maxVerify) == d.(skipped := d.skipped + 1)
  {
  }

  /** A hit of a stored candidate is added to it, and claims it while there is budget and it is a discovered company. */
  lemma {:induction false} KnownHit(d: Discovery, mission: string, hit: Hit, maxVerify: nat, i: nat)
    requires KeysApart(d.state.candidates) && hit.key != ""
    requires i < |d.state.candidates| && KeyedBy(d.state.candidates[i], mission, hit.key)
    ensures var c := d.state.candidates[i];
            var claimed := Claims(d, c, maxVerify);
            AfterHit(d, mission, hit, maxVerify)
            == d.(state := d.state.(candidates := d.state.candidates[i := Seen(c, hit, claimed)]),
                  verify := if claimed then d.verify + [i] else d.verify, deduped := d.deduped + 1)
  {
    FoundByKey(d.state.candidates, mission, hit.key);
    SeenIs(d.state.candidates[i], hit, |d.verify| < maxVerify);
  }

  ghost predicate Unknown(candidates: seq<Candidate>, mission: string, key: string) {
    forall i :: 0 <= i < |candidates| ==> !KeyedBy(candidates[i], mission, key)
  }

  /** Any other hit adds a candidate, which is triaged away or may be claimed at once. */
  lemma {:induction false} NewHit(d: Discovery, mission: string, hit: Hit, maxVerify: nat)
    requires KeysApart(d.state.candidates) && hit.key != "" && Unknown(d.state.candidates, mission, hit.key)
    ensures var c := NewFromHit(mission, hit);
            var claimed := |d.verify| < maxVerify && hit.isCompany;
            AfterHit(d, mission, hit, maxVerify)
            == d.(state := d.state.(candidates := d.state.candidates + [Seen(c, hit, claimed)]),
                  verify := if claimed then d.verify + [|d.state.candidates|] else d.verify,
                  created := d.created + 1, triaged := d.triaged + if hit.isCompany then 0 else 1)
  {
    FoundByKey(d.state.candidates, mission, hit.key);
    SeenIs(NewFromHit(mission, hit), hit, |d.verify| < maxVerify);
    NewMeans(mission, hit, "", "", "", "");
  }

  lemma {:induction false} UpdateApart(candidates: seq<Candidate>, i: nat, c: Candidate)
    requires KeysApart(candidates) && i < |candidates|
    requires c.mission == candidates[i].mission && c.key == candidates[i].key
    ensures KeysApart(candidates[i := c])
  {
    var after := candidates[i := c];
    forall m, n | 0 <= m < n < |after| ensures !KeyedBy(after[m], after[n].mission, after[n].key) {
      assert !KeyedBy(candidates[m], candidates[n].mission, candidates[n].key);
    }
  }

  lemma {:induction false} AppendApart(candidates: seq<Candidate>, c: Candidate)
    requires KeysApart(candidates) && Unknown(candidates, c.mission, c.key)
    ensures KeysApart(candidates + [c])
  {
  }

  /** Of the three turns the one that is taken. */
  lemma {:induction false} TurnKeepsApart(d: Discovery, mission: string, hit: Hit, maxVerify: nat)
    requires KeysApart(d.state.candidates)
    ensures KeysApart(AfterHit(d, mission, hit, maxVerify).state.candidates)
  {
    if hit.key == "" {
      SkippedHit(d, mission, hit, maxVerify);
    } else if i :| 0 <= i < |d.state.candidates| && KeyedBy(d.state.candidates[i], mission, hit.key) {
      var c := d.state.candidates[i];
      KnownHit(d, mission, hit, maxVerify, i);
      UpdateApart(d.state.candidates, i, Seen(c, hit, Claims(d, c, maxVerify)));
    } else {
      NewHit(d, mission, hit, maxVerify);
      NewMeans(mission, hit, "", "", "", "");
      AppendApart(d.state.candidates,
                  Seen(NewFromHit(mission, hit), hit, |d.verify| < maxVerify && hit.isCompany));
    }
  }

  // ---------------------------------------------------------------------------
  // The whole search
  // ---------------------------------------------------------------------------

  /** The candidate belongs to the mission, and some hit has its domain. */
  ghost predicate Named(hits: seq<Hit>, c: Candidate, mission: string) {
    c.mission == mission && c.key != "" && exists k :: 0 <= k < |hits| && hits[k].key == c.key
  }

  function Unkeyed(hits: seq<Hit>): nat {
    if hits == [] then 0
    else Unkeyed(hits[..|hits| - 1]) + if hits[|hits| - 1].key == "" then 1 else 0
  }

  function Others(candidates: seq<Candidate>): nat {
    if candidates == [] then 0
    else Others(candidates[..|candidates| - 1]) + if candidates[|candidates| - 1].isCompany then 0 else 1
  }

  /** A candidate stored before keeps everything but its evidence and its status; it is being verified if it is on the
      list, which only named and discovered companies are. */
  ghost predicate OldRow(s: State, d: Discovery, mission: string, hits: seq<Hit>, i: nat)
    requires i < |s.candidates| && i < |d.state.candidates|
  {
    var c, c' := s.candidates[i], d.state.candidates[i];
    && c' == c.(evidence := c'.evidence, status := if i in d.verify then Verifying else c.status)
    && (i in d.verify ==> c.status == Discovered && c.isCompany && Named(hits, c, mission))
    && (!Named(hits, c, mission) ==> c' == c)
  }

  /** A new candidate is named by a hit; it is being verified if it is on the list, which only companies are, waits for
      it if it is a company, and needs evidence if not. */
  ghost predicate NewRow(d: Discovery, mission: string, hits: seq<Hit>, i: nat)
    requires i < |d.state.candidates|
  {
    var c := d.state.candidates[i];
    && Named(hits, c, mission)
    && c.status == (if i in d.verify then Verifying else if c.isCompany then Discovered else NeedsEvidence)
    && (i in d.verify ==> c.isCompany)
  }

  ghost predicate RowAfter(s: State, d: Discovery, mission: string, hits: seq<Hit>, i: nat)
    requires i < |d.state.candidates|
  {
    if i < |s.candidates| then OldRow(s, d, mission, hits, i) else NewRow(d, mission, hits, i)
  }

  ghost predicate Kept(d: Discovery, mission: string, hit: Hit) {
    hit.key != "" ==>
      exists i :: 0 <= i < |d.state.candidates| && KeyedBy(d.state.candidates[i], mission, hit.key)
          && HasContent(d.state.candidates[i].evidence, hit.url, hit.hash)
  }

  predicate Waiting(c: Candidate) {
    c.status == Discovered && c.isCompany
  }

  ghost predicate NoneWaits(d: Discovery, mission: string, hits: seq<Hit>) {
    forall i :: 0 <= i < |d.state.candidates| && Named(hits, d.state.candidates[i], mission) ==>
      !Waiting(d.state.candidates[i])
  }

  ghost predicate VerifyStored(d: Discovery) {
    forall i :: 0 <= i < |d.verify| ==> d.verify[i] < |d.state.candidates|
  }

  /** What becomes of the rows. */
  ghost predicate RowsMean(s: State, d: Discovery, mission: string, hits: seq<Hit>, maxVerify: nat) {
    && |s.candidates| <= |d.state.candidates|
    && (forall i :: 0 <= i < |d.state.candidates| ==> RowAfter(s, d, mission, hits, i))
    && (forall k :: 0 <= k < |hits| ==> Kept(d, mission, hits[k]))
    && VerifyStored(d) && (|d.verify| < maxVerify ==> NoneWaits(d, mission, hits))
  }

  /** What is counted, and what stays. */
  ghost predicate CountsMean(s: State, d: Discovery, hits: seq<Hit>) {
    && d.state == s.(candidates := d.state.candidates) && |s.candidates| <= |d.state.candidates|
    && KeysApart(d.state.candidates)
    && d.skipped == Unkeyed(hits)
    && d.created == |d.state.candidates| - |s.candidates|
    && d.triaged == Others(d.state.candidates[|s.candidates|..])
  }

  lemma {:induction false} NamedGrows(hits: seq<Hit>, hit: Hit, c: Candidate, mission: string)
    ensures Named(hits + [hit], c, mission) <==>
            Named(hits, c, mission) || (c.mission == mission && c.key != "" && c.key == hit.key)
  {
    var all := hits + [hit];
    if k :| 0 <= k < |hits| && hits[k].key == c.key { assert all[k].key == c.key; }
    assert all[|hits|] == hit;
  }

  lemma {:induction false} KeptStays(d: Discovery, d': Discovery, mission: string, hit: Hit)
    requires Kept(d, mission, hit) && |d.state.candidates| <= |d'.state.candidates|
    requires forall i :: 0 <= i < |d.state.candidates| ==>
               d'.state.candidates[i].mission == d.state.candidates[i].mission
               && d'.state.candidates[i].key == d.state.candidates[i].key
               && d.state.candidates[i].evidence <= d'.state.candidates[i].evidence
    ensures Kept(d', mission, hit)
  {
    if hit.key != "" {
      var i :| 0 <= i < |d.state.candidates| && KeyedBy(d.state.candidates[i], mission, hit.key)
        && HasContent(d.state.candidates[i].evidence, hit.url, hit.hash);
      var rows, rows' := d.state.candidates[i].evidence, d'.state.candidates[i].evidence;
      var k :| 0 <= k < |rows| && rows[k].url == hit.url && rows[k].hash == hit.hash;
      assert rows'[k] == rows[k];
    }
  }

  lemma {:induction false} OthersSame(a: seq<Candidate>, b: seq<Candidate>)
    requires |a| == |b| && forall i :: 0 <= i < |a| ==> a[i].isCompany == b[i].isCompany
    ensures Others(a) == Others(b)
  {
    if a != [] {
      assert a[|a| - 1].isCompany == b[|a| - 1].isCompany;
      OthersSame(a[..|a| - 1], b[..|b| - 1]);
    }
  }

  /** The turn of a hit whose candidate is stored. */
  ghost predicate KnownTurn(d: Discovery, d': Discovery, mission: string, hit: Hit, maxVerify: nat, i: nat) {
    && hit.key != "" && KeysApart(d.state.candidates)
    && i < |d.state.candidates| && KeyedBy(d.state.candidates[i], mission, hit.key)
    && var c := d.state.candidates[i];
    && d'.state.candidates == d.state.candidates[i := Seen(c, hit, Claims(d, c, maxVerify))]
    && d'.verify == if Claims(d, c, maxVerify) then d.verify + [i] else d.verify
  }

  lemma {:induction false} OnlyOne(candidates: seq<Candidate>, mission: string, key: string, i: nat, j: nat)
    requires KeysApart(candidates) && i < |candidates| && j < |candidates| && i != j
    requires KeyedBy(candidates[i], mission, key)
    ensures !KeyedBy(candidates[j], mission, key)
  {
    var a, b := if i < j then i else j, if i < j then j else i;
    assert !KeyedBy(candidates[a], candidates[b].mission, candidates[b].key);
  }

  lemma {:induction false} KnownRow(s: State, d: Discovery, d': Discovery, mission: string, hits: seq<Hit>, hit: Hit,
      maxVerify: nat, i: nat, j: nat)
    requires |s.candidates| <= |d.state.candidates| && KnownTurn(d, d', mission, hit, maxVerify, i)
    requires j < |d.state.candidates| && RowAfter(s, d, mission, hits, j)
    ensures RowAfter(s, d', mission, hits + [hit], j)
  {
    NamedGrows(hits, hit, d.state.candidates[j], mission);
    if j < |s.candidates| { NamedGrows(hits, hit, s.candidates[j], mission); }
    if j != i { OnlyOne(d.state.candidates, mission, hit.key, i, j); }
  }

  lemma {:induction false} KnownWaits(d: Discovery, d': Discovery, mission: string, hits: seq<Hit>, hit: Hit,
      maxVerify: nat, i: nat)
    requires KnownTurn(d, d', mission, hit, maxVerify, i)
    requires NoneWaits(d, mission, hits) && |d.verify| < maxVerify
    ensures NoneWaits(d', mission, hits + [hit])
  {
    forall j | 0 <= j < |d'.state.candidates| && Named(hits + [hit], d'.state.candidates[j], mission)
      ensures !Waiting(d'.state.candidates[j])
    {
      NamedGrows(hits, hit, d'.state.candidates[j], mission);
      if j != i {
        OnlyOne(d.state.candidates, mission, hit.key, i, j);
        assert Named(hits, d.state.candidates[j], mission);
      }
    }
  }

  lemma {:induction false} SeenHas(c: Candidate, hit: Hit, claimed: bool)
    ensures HasContent(Seen(c, hit, claimed).evidence, hit.url, hit.hash)
    ensures c.evidence <= Seen(c, hit, claimed).evidence
  {
    var rows := Seen(c, hit, claimed).evidence;
    if !HasContent(c.evidence, hit.url, hit.hash) {
      assert rows[|c.evidence|].url == hit.url && rows[|c.evidence|].hash == hit.hash;
    }
  }

  lemma {:induction false} KnownKept(d: Discovery, d': Discovery, mission: string, hits: seq<Hit>, hit: Hit,
      maxVerify: nat, i: nat, k: nat)
    requires KnownTurn(d, d', mission, hit, maxVerify, i) && k < |hits| + 1
    requires forall m :: 0 <= m < |hits| ==> Kept(d, mission, hits[m])
    ensures Kept(d', mission, (hits + [hit])[k])
  {
    var c := d.state.candidates[i];
    SeenHas(c, hit, Claims(d, c, maxVerify));
    if k < |hits| {
      KeptStays(d, d', mission, hits[k]);
    } else {
      assert KeyedBy(d'.state.candidates[i], mission, hit.key);
    }
  }

  /** The turn of any other hit. */
  ghost predicate NewTurn(d: Discovery, d': Discovery, mission: string, hit: Hit, maxVerify: nat) {
    && hit.key != "" && Unknown(d.state.candidates, mission, hit.key)
    && var claimed := |d.verify| < maxVerify && hit.isCompany;
    && d'.state.candidates == d.state.candidates + [Seen(NewFromHit(mission, hit), hit, claimed)]
    && d'.verify == if claimed then d.verify + [|d.state.candidates|] else d.verify
  }

  lemma {:induction false} EarlierRow(s: State, d: Discovery, d': Discovery, mission: string, hits: seq<Hit>,
      hit: Hit, maxVerify: nat, j: nat)
    requires |s.candidates| <= |d.state.candidates| && NewTurn(d, d', mission, hit, maxVerify)
    requires j < |d.state.candidates| && RowAfter(s, d, mission, hits, j)
    ensures RowAfter(s, d', mission, hits + [hit], j)
  {
    assert d'.state.candidates[j] == d.state.candidates[j] && (j in d'.verify <==> j in d.verify);
    NamedGrows(hits, hit, d.state.candidates[j], mission);
    assert !KeyedBy(d.state.candidates[j], mission, hit.key);
    if j < |s.candidates| { NamedGrows(hits, hit, s.candidates[j], mission); }
  }

  lemma {:induction false} AddedRow(d: Discovery, d': Discovery, mission: string, hits: seq<Hit>, hit: Hit,
      maxVerify: nat)
    requires NewTurn(d, d', mission, hit, maxVerify) && VerifyStored(d)
    ensures NewRow(d', mission, hits + [hit], |d.state.candidates|)
  {
    NamedGrows(hits, hit, d'.state.candidates[|d.state.candidates|], mission);
    NewMeans(mission, hit, "", "", "", "");
  }

  lemma {:induction false} NewWaits(d: Discovery, d': Discovery, mission: string, hits: seq<Hit>, hit: Hit,
      maxVerify: nat)
    requires NewTurn(d, d', mission, hit, maxVerify) && NoneWaits(d, mission, hits) && |d.verify| < maxVerify
    ensures NoneWaits(d', mission, hits + [hit])
  {
    NewMeans(mission, hit, "", "", "", "");
    forall j | 0 <= j < |d'.state.candidates| && Named(hits + [hit], d'.state.candidates[j], mission)
      ensures !Waiting(d'.state.candidates[j])
    {
      NamedGrows(hits, hit, d'.state.candidates[j], mission);
      if j < |d.state.candidates| {
        assert !KeyedBy(d.state.candidates[j], mission, hit.key);
        assert Named(hits, d.state.candidates[j], mission);
      }
    }
  }

  lemma {:induction false} NewKept(d: Discovery, d': Discovery, mission: string, hits: seq<Hit>, hit: Hit,
      maxVerify: nat, k: nat)
    requires NewTurn(d, d', mission, hit, maxVerify) && k < |hits| + 1
    requires forall m :: 0 <= m < |hits| ==> Kept(d, mission, hits[m])
    ensures Kept(d', mission, (hits + [hit])[k])
  {
    SeenHas(NewFromHit(mission, hit), hit, |d.verify| < maxVerify && hit.isCompany);
    NewMeans(mission, hit, "", "", "", "");
    if k < |hits| {
      KeptStays(d, d', mission, hits[k]);
    } else {
      assert KeyedBy(d'.state.candidates[|d.state.candidates|], mission, hit.key);
    }
  }

  lemma {:induction false} SkippedKeeps(s: State, d: Discovery, d': Discovery, mission: string, hits: seq<Hit>,
      hit: Hit, maxVerify: nat)
    requires RowsMean(s, d, mission, hits, maxVerify) && hit.key == ""
    requires d'.state == d.state && d'.verify == d.verify
    ensures RowsMean(s, d', mission, hits + [hit], maxVerify)
  {
    forall i | 0 <= i < |d.state.candidates| ensures RowAfter(s, d', mission, hits + [hit], i) {
      assert RowAfter(s, d, mission, hits, i);
      NamedGrows(hits, hit, d.state.candidates[i], mission);
      if i < |s.candidates| { NamedGrows(hits, hit, s.candidates[i], mission); }
    }
    forall i | 0 <= i < |d.state.candidates|
      ensures Named(hits + [hit], d.state.candidates[i], mission) <==> Named(hits, d.state.candidates[i], mission)
    {
      NamedGrows(hits, hit, d.state.candidates[i], mission);
    }
    forall k | 0 <= k < |hits| + 1 ensures Kept(d', mission, (hits + [hit])[k]) {
      if k < |hits| { assert Kept(d, mission, hits[k]); }
    }
  }

  lemma {:induction false} KnownKeeps(s: State, d: Discovery, d': Discovery, mission: string, hits: seq<Hit>, hit: Hit,
      maxVerify: nat, i: nat)
    requires RowsMean(s, d, mission, hits, maxVerify) && KnownTurn(d, d', mission, hit, maxVerify, i)
    ensures RowsMean(s, d', mission, hits + [hit], maxVerify)
  {
    forall j | 0 <= j < |d'.state.candidates| ensures RowAfter(s, d', mission, hits + [hit], j) {
      assert RowAfter(s, d, mission, hits, j);
      KnownRow(s, d, d', mission, hits, hit, maxVerify, i, j);
    }
    forall k | 0 <= k < |hits| + 1 ensures Kept(d', mission, (hits + [hit])[k]) {
      KnownKept(d, d', mission, hits, hit, maxVerify, i, k);
    }
    if |d.verify| < maxVerify { KnownWaits(d, d', mission, hits, hit, maxVerify, i); }
  }

  lemma {:induction false} NewKeeps(s: State, d: Discovery, d': Discovery, mission: string, hits: seq<Hit>, hit: Hit,
      maxVerify: nat)
    requires RowsMean(s, d, mission, hits, maxVerify) && NewTurn(d, d', mission, hit, maxVerify)
    ensures RowsMean(s, d', mission, hits + [hit], maxVerify)
  {
    forall j | 0 <= j < |d'.state.candidates| ensures RowAfter(s, d', mission, hits + [hit], j) {
      if j < |d.state.candidates| {
        assert RowAfter(s, d, mission, hits, j);
        EarlierRow(s, d, d', mission, hits, hit, maxVerify, j);
      } else {
        AddedRow(d, d', mission, hits, hit, maxVerify);
      }
    }
    forall k | 0 <= k < |hits| + 1 ensures Kept(d', mission, (hits + [hit])[k]) {
      NewKept(d, d', mission, hits, hit, maxVerify, k);
    }
    if |d.verify| < maxVerify { NewWaits(d, d', mission, hits, hit, maxVerify); }
  }

  lemma {:induction false} TurnKeepsRows(s: State, d: Discovery, mission: string, hits: seq<Hit>, hit: Hit,
      maxVerify: nat)
    requires KeysApart(d.state.candidates) && RowsMean(s, d, mission, hits, maxVerify)
    ensures RowsMean(s, AfterHit(d, mission, hit, maxVerify), mission, hits + [hit], maxVerify)
  {
    var d' := AfterHit(d, mission, hit, maxVerify);
    if hit.key == "" {
      SkippedHit(d, mission, hit, maxVerify);
      SkippedKeeps(s, d, d', mission, hits, hit, maxVerify);
    } else if i :| 0 <= i < |d.state.candidates| && KeyedBy(d.state.candidates[i], mission, hit.key) {
      KnownHit(d, mission, hit, maxVerify, i);
      KnownKeeps(s, d, d', mission, hits, hit, maxVerify, i);
    } else {
      NewHit(d, mission, hit, maxVerify);
      NewKeeps(s, d, d', mission, hits, hit, maxVerify);
    }
  }

  lemma {:induction false} OthersGrows(candidates: seq<Candidate>, n: nat, c: Candidate)
    requires n <= |candidates|
    ensures Others((candidates + [c])[n..]) == Others(candidates[n..]) + if c.isCompany then 0 else 1
  {
    var a := (candidates + [c])[n..];
    assert a == candidates[n..] + [c] && a[..|a| - 1] == candidates[n..];
  }

  lemma {:induction false} KnownCounts(s: State, d: Discovery, mission: string, hit: Hit, maxVerify: nat, i: nat)
    requires KeysApart(d.state.candidates) && hit.key != "" && |s.candidates| <= |d.state.candidates|
    requires i < |d.state.candidates| && KeyedBy(d.state.candidates[i], mission, hit.key)
    ensures var d' := AfterHit(d, mission, hit, maxVerify);
            && d'.state == d.state.(candidates := d'.state.candidates)
            && |d'.state.candidates| == |d.state.candidates|
            && d'.skipped == d.skipped && d'.created == d.created && d'.triaged == d.triaged
            && Others(d'.state.candidates[|s.candidates|..]) == Others(d.state.candidates[|s.candidates|..])
  {
    var d' := AfterHit(d, mission, hit, maxVerify);
    KnownHit(d, mission, hit, maxVerify, i);
    OthersSame(d.state.candidates[|s.candidates|..], d'.state.candidates[|s.candidates|..]);
  }

  lemma {:induction false} NewCounts(s: State, d: Discovery, mission: string, hit: Hit, maxVerify: nat)
    requires KeysApart(d.state.candidates) && hit.key != "" && |s.candidates| <= |d.state.candidates|
    requires Unknown(d.state.candidates, mission, hit.key)
    ensures var d', more := AfterHit(d, mission, hit, maxVerify), if hit.isCompany then 0 else 1;
            && d'.state == d.state.(candidates := d'.state.candidates)
            && |d'.state.candidates| == |d.state.candidates| + 1
            && d'.skipped == d.skipped && d'.created == d.created + 1 && d'.triaged == d.triaged + more
            && Others(d'.state.candidates[|s.candidates|..]) == Others(d.state.candidates[|s.candidates|..]) + more
  {
    var d' := AfterHit(d, mission, hit, maxVerify);
    NewHit(d, mission, hit, maxVerify);
    NewMeans(mission, hit, "", "", "", "");
    OthersGrows(d.state.candidates, |s.candidates|, d'.state.candidates[|d.state.candidates|]);
  }

  lemma {:induction false} TurnKeepsCounts(s: State, d: Discovery, mission: string, hits: seq<Hit>, hit: Hit,
      maxVerify: nat)
    requires CountsMean(s, d, hits)
    ensures CountsMean(s, AfterHit(d, mission, hit, maxVerify), hits + [hit])
  {
    TurnKeepsApart(d, mission, hit, maxVerify);
    assert (hits + [hit])[..|hits|] == hits;
    if hit.key == "" {
      SkippedHit(d, mission, hit, maxVerify);
    } else if i :| 0 <= i < |d.state.candidates| && KeyedBy(d.state.candidates[i], mission, hit.key) {
      KnownCounts(s, d, mission, hit, maxVerify, i);
    } else {
      NewCounts(s, d, mission, hit, maxVerify);
    }
  }

  /** After a search every hit with a domain is evidence of the one candidate of its mission and domain. Stored
      candidates keep everything else, new ones are companies to verify or need evidence; exactly the candidates on the
      list have been claimed, and while there was budget no named company was left unclaimed. The numbers are those of
      the hits without a domain, of the new candidates, and of those among them that are no companies. */
  lemma {:induction false} SearchMeans(s: State, mission: string, hits: seq<Hit>, maxVerify: nat)
    requires KeysApart(s.candidates)
    ensures var d := AfterHits(s, mission, hits, maxVerify);
            RowsMean(s, d, mission, hits, maxVerify) && CountsMean(s, d, hits)
  {
    if hits == [] {
      assert s.candidates[|s.candidates|..] == [];
    } else {
      var front, hit := hits[..|hits| - 1], hits[|hits| - 1];
      SearchMeans(s, mission, front, maxVerify);
      var d := AfterHits(s, mission, front, maxVerify);
      assert hits == front + [hit];
      TurnKeepsRows(s, d, mission, front, hit, maxVerify);
      TurnKeepsCounts(s, d, mission, front, hit, maxVerify);
    }
  }
}
