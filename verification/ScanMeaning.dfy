/**
 What a scan plans and fetches, in terms of the links of the site and of what happened to each page.
 */
module ScanMeaning {
  import opened Common
  import opened RadarScan

  // ---------------------------------------------------------------------------
  // Which pages are planned
  // ---------------------------------------------------------------------------

  function Smaller(a: nat, b: nat): nat {
    if a <= b then a else b
  }

  ghost function PageUrls(plan: seq<Page>): set<string> {
    set p | p in plan :: p.url
  }

  ghost function LinkUrls(links: seq<Link>): set<string> {
    set link | link in links && link.Resolved? :: link.url
  }

  /** The URLs known before link k: those of the plan and of the earlier links. */
  ghost function Known(plan: seq<Page>, links: seq<Link>, k: nat): set<string>
    requires k <= |links|
  {
    PageUrls(plan) + LinkUrls(links[..k])
  }

  lemma {:induction false} PlannedIff(plan: seq<Page>, url: string)
    ensures Planned(plan, url) <==> url in PageUrls(plan)
  {
    if i :| 0 <= i < |plan| && plan[i].url == url { assert plan[i] in plan; }
  }

  lemma {:induction false} DistinctAreAsMany(plan: seq<Page>)
    ensures |PageUrls(plan)| <= |plan|
    ensures DistinctUrls(plan) ==> |PageUrls(plan)| == |plan|
  {
    if plan == [] {
      assert PageUrls(plan) == {};
    } else {
      var front, last := plan[..|plan| - 1], plan[|plan| - 1];
      DistinctAreAsMany(front);
      assert plan == front + [last];
      assert PageUrls(plan) == PageUrls(front) + {last.url};
      PlannedIff(front, last.url);
    }
  }

  lemma {:induction false} LinkUrlsExtend(links: seq<Link>)
    requires links != []
    ensures var last := links[|links| - 1];
            LinkUrls(links) == LinkUrls(links[..|links| - 1]) + if last.Resolved? then {last.url} else {}
  {
    assert links == links[..|links| - 1] + [links[|links| - 1]];
  }

  /** The page is that of link k, whose URL no earlier page or link has. */
  ghost predicate FirstAt(plan: seq<Page>, links: seq<Link>, k: nat, page: Page) {
    && k < |links| && links[k] == Resolved(page.url, page.kind) && page.url !in Known(plan, links, k)
  }

  /** Position j of the plan is taken by the link that brought the URL number j. */
  ghost predicate Placed(plan: seq<Page>, links: seq<Link>, page: Page, j: nat) {
    exists k: nat :: FirstAt(plan, links, k, page) && |Known(plan, links, k)| == j
  }

  lemma {:induction false} PlacedStays(plan: seq<Page>, links: seq<Link>, page: Page, j: nat)
    requires links != [] && Placed(plan, links[..|links| - 1], page, j)
    ensures Placed(plan, links, page, j)
  {
    var front := links[..|links| - 1];
    var k: nat :| FirstAt(plan, front, k, page) && |Known(plan, front, k)| == j;
    assert front[..k] == links[..k];
    assert FirstAt(plan, links, k, page);
  }

  lemma {:induction false} UrlsWithLinks(plan: seq<Page>, links: seq<Link>, limit: nat)
    requires DistinctUrls(plan) && |plan| <= limit
    ensures PageUrls(WithLinks(plan, links, limit)) <= Known(plan, links, |links|)
    ensures |WithLinks(plan, links, limit)| < limit ==>
              PageUrls(WithLinks(plan, links, limit)) == Known(plan, links, |links|)
  {
    if links == [] {
      assert LinkUrls([]) == {};
    } else {
      var front, last := links[..|links| - 1], links[|links| - 1];
      var before := WithLinks(plan, front, limit);
      UrlsWithLinks(plan, front, limit);
      LinkUrlsExtend(links);
      assert front[..|front|] == front && links[..|links|] == links;
      if |before| < limit && last.Resolved? {
        PlannedIff(before, last.url);
        assert PageUrls(before + [Page(last.url, last.kind)]) == PageUrls(before) + {last.url};
      }
    }
  }

  lemma {:induction false} KnownExtends(plan: seq<Page>, links: seq<Link>)
    requires links != []
    ensures var front, last := links[..|links| - 1], links[|links| - 1];
            && Known(plan, links, |front|) == Known(plan, front, |front|)
            && Known(plan, links, |links|) == Known(plan, front, |front|) + if last.Resolved? then {last.url} else {}
  {
    var front := links[..|links| - 1];
    LinkUrlsExtend(links);
    assert front[..|front|] == front && links[..|links|] == links && links[..|front|] == front;
  }

  lemma {:induction false} AsManyAsKnown(plan: seq<Page>, links: seq<Link>, limit: nat)
    requires DistinctUrls(plan) && |plan| <= limit
    ensures |WithLinks(plan, links, limit)| == Smaller(limit, |Known(plan, links, |links|)|)
  {
    if links == [] {
      assert Known(plan, links, 0) == PageUrls(plan);
      DistinctAreAsMany(plan);
    } else {
      var front, last := links[..|links| - 1], links[|links| - 1];
      var before := WithLinks(plan, front, limit);
      AsManyAsKnown(plan, front, limit);
      UrlsWithLinks(plan, front, limit);
      KnownExtends(plan, links);
      if |before| < limit && last.Resolved? { PlannedIff(before, last.url); }
    }
  }

  lemma {:induction false} AddedIsNew(plan: seq<Page>, front: seq<Link>, last: Link, limit: nat)
    requires DistinctUrls(plan) && |plan| <= limit
    requires var before := WithLinks(plan, front, limit);
             |before| < limit && last.Resolved? && !Planned(before, last.url)
    ensures last.url !in Known(plan, front, |front|) && |Known(plan, front, |front|)| == |WithLinks(plan, front, limit)|
  {
    AsManyAsKnown(plan, front, limit);
    UrlsWithLinks(plan, front, limit);
    PlannedIff(WithLinks(plan, front, limit), last.url);
  }

  lemma {:induction false} AddedIsPlaced(plan: seq<Page>, links: seq<Link>, limit: nat)
    requires DistinctUrls(plan) && |plan| <= limit && links != []
    requires |WithLinks(plan, links, limit)| > |WithLinks(plan, links[..|links| - 1], limit)|
    ensures var before, r := WithLinks(plan, links[..|links| - 1], limit), WithLinks(plan, links, limit);
            |r| == |before| + 1 && Placed(plan, links, r[|before|], |before|)
  {
    var n, last := |links| - 1, links[|links| - 1];
    AddedIsNew(plan, links[..n], last, limit);
    KnownExtends(plan, links);
    assert FirstAt(plan, links, n, Page(last.url, last.kind));
  }

  /** The links are followed in order, each URL once, until the plan is full: the plan has as many pages as there are
      different URLs, or as the limit allows, and every added page is in the place its link brought it. */
  lemma {:induction false} LinksMean(plan: seq<Page>, links: seq<Link>, limit: nat)
    requires DistinctUrls(plan) && |plan| <= limit
    ensures var r := WithLinks(plan, links, limit);
            && |r| == Smaller(limit, |Known(plan, links, |links|)|)
            && plan <= r
            && (forall j :: |plan| <= j < |r| ==> Placed(plan, links, r[j], j))
  {
    AsManyAsKnown(plan, links, limit);
    LinksKeepPlan(plan, links, limit);
    if links != [] {
      var front := links[..|links| - 1];
      var before, r := WithLinks(plan, front, limit), WithLinks(plan, links, limit);
      LinksMean(plan, front, limit);
      if |r| > |before| { AddedIsPlaced(plan, links, limit); }
      forall j | |plan| <= j < |r| ensures Placed(plan, links, r[j], j) {
        if j < |before| { PlacedStays(plan, links, r[j], j); }
      }
    }
  }

  /** A refused link before which fewer URLs than the limit are known. */
  ghost predicate RefusedInReach(plan: seq<Page>, links: seq<Link>, limit: nat, k: nat) {
    k < |links| && links[k].Refused? && |Known(plan, links, k)| < limit
  }

  lemma {:induction false} ReachStays(plan: seq<Page>, links: seq<Link>, limit: nat, k: nat)
    requires links != [] && k < |links| - 1
    ensures RefusedInReach(plan, links[..|links| - 1], limit, k) <==> RefusedInReach(plan, links, limit, k)
  {
    assert links[..|links| - 1][..k] == links[..k];
  }

  lemma {:induction false} LastInReach(plan: seq<Page>, links: seq<Link>, limit: nat)
    requires DistinctUrls(plan) && |plan| <= limit && links != []
    ensures var n := |links| - 1;
            RefusedInReach(plan, links, limit, n) <==>
            links[n].Refused? && |WithLinks(plan, links[..n], limit)| < limit
  {
    AsManyAsKnown(plan, links[..|links| - 1], limit);
    KnownExtends(plan, links);
  }

  lemma {:induction false} FailsInReach(plan: seq<Page>, links: seq<Link>, limit: nat) returns (k: nat)
    requires DistinctUrls(plan) && |plan| <= limit && Fails(plan, links, limit)
    ensures RefusedInReach(plan, links, limit, k)
  {
    var front := links[..|links| - 1];
    if Fails(plan, front, limit) {
      k := FailsInReach(plan, front, limit);
      ReachStays(plan, links, limit, k);
    } else {
      k := |links| - 1;
      LastInReach(plan, links, limit);
    }
  }

  lemma {:induction false} InReachFails(plan: seq<Page>, links: seq<Link>, limit: nat, k: nat)
    requires DistinctUrls(plan) && |plan| <= limit && RefusedInReach(plan, links, limit, k)
    ensures Fails(plan, links, limit)
    decreases |links|
  {
    if k < |links| - 1 {
      ReachStays(plan, links, limit, k);
      InReachFails(plan, links[..|links| - 1], limit, k);
    } else {
      LastInReach(plan, links, limit);
    }
  }

  /** Planning fails exactly at such a link. */
  lemma {:induction false} FailsMeans(plan: seq<Page>, links: seq<Link>, limit: nat)
    requires DistinctUrls(plan) && |plan| <= limit
    ensures Fails(plan, links, limit) <==> exists k: nat :: RefusedInReach(plan, links, limit, k)
  {
    if Fails(plan, links, limit) { var k := FailsInReach(plan, links, limit); }
    if k: nat :| RefusedInReach(plan, links, limit, k) { InReachFails(plan, links, limit, k); }
  }

  lemma {:induction false} LinksAppend(plan: seq<Page>, a: seq<Link>, b: seq<Link>, limit: nat)
    ensures WithLinks(WithLinks(plan, a, limit), b, limit) == WithLinks(plan, a + b, limit)
  {
    if b == [] {
      assert a + b == a;
    } else {
      assert (a + b)[..|a + b| - 1] == a + b[..|b| - 1];
      LinksAppend(plan, a, b[..|b| - 1], limit);
    }
  }

  function HomePlan(url: string): seq<Page> {
    [Page(url, Home)]
  }

  /** The planner starts with the home page and follows the configured and then the observed links in order, each URL
      once, until the plan is full. It fails exactly without a home page, or at a refused configured link that it
      reaches before. */
  lemma {:induction false} PlanMeans(site: Site, limit: nat)
    requires limit > 0
    ensures Plan(site, limit).None? <==>
              || site.home.None?
              || exists k: nat :: RefusedInReach(HomePlan(site.home.value), site.seeds, limit, k)
    ensures Plan(site, limit).Some? ==>
              var plan, home, links := Plan(site, limit).value, HomePlan(site.home.value), site.seeds + site.observed;
              && |plan| == Smaller(limit, |Known(home, links, |links|)|)
              && home <= plan
              && (forall j :: 1 <= j < |plan| ==> Placed(home, links, plan[j], j))
  {
    if site.home.Some? {
      var home := HomePlan(site.home.value);
      FailsMeans(home, site.seeds, limit);
      LinksAppend(home, site.seeds, site.observed, limit);
      LinksMean(home, site.seeds + site.observed, limit);
    }
  }

  /** The page limit of a budget is its number if that is from 1 to 25, the nearer bound if it is another number, and 10
      without one. */
  lemma {:induction false} PageLimitMeans(budget: Option<int>)
    ensures budget.None? ==> PageLimit(budget) == 10
    ensures budget.Some? ==>
              && (1 <= budget.value <= 25 ==> PageLimit(budget) == budget.value)
              && (budget.value < 1 ==> PageLimit(budget) == 1)
              && (budget.value > 25 ==> PageLimit(budget) == 25)
  {
  }

  // ---------------------------------------------------------------------------
  // What the scan fetches
  // ---------------------------------------------------------------------------

  predicate Good(f: Fetched) {
    f.Stored? && f.valid
  }

  /** The page was a home page and turned out valid, so its links are followed. */
  predicate Opens(page: Page, turn: Turn) {
    page.kind == Home && Good(turn.fetched)
  }

  /** Every link of the site that resolves is planned. */
  ghost predicate Covers(plan: seq<Page>, site: Site) {
    && (forall k :: 0 <= k < |site.observed| && site.observed[k].Resolved? ==> Planned(plan, site.observed[k].url))
    && (forall k :: 0 <= k < |site.seeds| && site.seeds[k].Resolved? ==> Planned(plan, site.seeds[k].url))
  }

  lemma {:induction false} CoverStays(plan: seq<Page>, grown: seq<Page>, site: Site)
    requires Covers(plan, site) && plan <= grown
    ensures Covers(grown, site)
  {
    forall url | Planned(plan, url) ensures Planned(grown, url) {
      var i :| 0 <= i < |plan| && plan[i].url == url;
      assert grown[i].url == url;
    }
  }

  lemma {:induction false} PlannedStays(plan: seq<Page>, grown: seq<Page>, url: string)
    requires Planned(plan, url) && plan <= grown
    ensures Planned(grown, url)
  {
    var i :| 0 <= i < |plan| && plan[i].url == url;
    assert grown[i].url == url;
  }

  lemma {:induction false} RoomyPlanCovers(site: Site, limit: nat)
    requires limit > 0 && Plan(site, limit).Some? && |Plan(site, limit).value| < limit
    ensures Covers(Plan(site, limit).value, site)
  {
    var home := HomePlan(site.home.value);
    var seeded := WithLinks(home, site.seeds, limit);
    LinksKeepPlan(home, site.seeds, limit);
    LinksKeepPlan(seeded, site.observed, limit);
    PlanIsSound(site, limit);
    forall k | 0 <= k < |site.seeds| && site.seeds[k].Resolved?
      ensures Planned(Plan(site, limit).value, site.seeds[k].url)
    {
      LinksAllPlanned(home, site.seeds, limit, k);
      PlannedStays(seeded, Plan(site, limit).value, site.seeds[k].url);
    }
  }

  lemma {:induction false} SubsetIsNoMore(a: set<string>, b: set<string>)
    requires a <= b
    ensures |a| <= |b|
  {
    if a != {} {
      var x :| x in a;
      SubsetIsNoMore(a - {x}, b - {x});
    }
  }

  lemma {:induction false} AllPlannedAreNoMore(a: seq<Page>, b: seq<Page>)
    requires DistinctUrls(a) && forall k :: 0 <= k < |a| ==> Planned(b, a[k].url)
    ensures |a| <= |b|
  {
    DistinctAreAsMany(a);
    DistinctAreAsMany(b);
    forall url | url in PageUrls(a) ensures url in PageUrls(b) {
      PlannedIff(a, url);
      var k :| 0 <= k < |a| && a[k].url == url;
      PlannedIff(b, url);
    }
    SubsetIsNoMore(PageUrls(a), PageUrls(b));
  }

  /** Merging a second plan fills the plan or covers the site. */
  lemma {:induction false} MergeCovers(plan: seq<Page>, site: Site, limit: nat)
    requires limit > 0 && DistinctUrls(plan) && |plan| <= limit && Plan(site, limit).Some?
    ensures var merged := Merged(plan, Plan(site, limit).value, limit);
            |merged| < limit ==> Covers(merged, site)
  {
    var second := Plan(site, limit).value;
    var merged := Merged(plan, second, limit);
    MergeKeepsPlan(plan, second, limit);
    PlanIsSound(site, limit);
    if |merged| < limit {
      AllPlannedAreNoMore(second, merged);
      RoomyPlanCovers(site, limit);
      forall url | Planned(second, url) ensures Planned(merged, url) {
        var i :| 0 <= i < |second| && second[i].url == url;
      }
    }
  }

  predicate FromSite(page: Page, site: Site) {
    || LinkOf(page) in site.seeds || LinkOf(page) in site.observed
    || (site.home.Some? && page == Page(site.home.value, Home))
  }

  /** The reasons given for a page that is not valid. */
  predicate Explains(f: Fetched, reason: string) {
    match f
    case Unreachable(why) => reason == why
    case FinalUrlRejected => reason == "final_url_rejected"
    case Stored(valid, reasons) => !valid && reason in reasons
  }

  ghost predicate SomeExplains(turns: seq<Turn>, reason: string) {
    exists i :: 0 <= i < |turns| && Explains(turns[i].fetched, reason)
  }

  ghost predicate Covered(p: Progress, turns: seq<Turn>, limit: nat, i: nat)
    requires p.Progress? && i < |turns| && i < |p.plan|
  {
    Opens(p.plan[i], turns[i]) ==> |p.plan| >= limit || Covers(p.plan, turns[i].site)
  }

  ghost predicate NoneOpens(plan: seq<Page>, turns: seq<Turn>) {
    |turns| <= |plan| && forall i :: 0 <= i < |turns| ==> !Opens(plan[i], turns[i])
  }

  /** What the progress after some turns says about them: a valid home page has filled the plan or brought all links of
      its site into it; without one the plan is the first one; and the reasons are those of the turns. */
  ghost predicate TurnsTaken(start: seq<Page>, turns: seq<Turn>, limit: nat, p: Progress) {
    && p.Progress? && |turns| <= |p.plan|
    && (forall i :: 0 <= i < |turns| ==> Covered(p, turns, limit, i))
    && (NoneOpens(p.plan, turns) ==> p.plan == start)
    && (forall reason :: reason in p.reasons <==> SomeExplains(turns, reason))
  }

  lemma {:induction false} PageGrows(plan: seq<Page>, page: Page, turn: Turn, limit: nat)
    requires limit > 0 && DistinctUrls(plan) && |plan| <= limit && Grown(plan, page, turn, limit).Some?
    ensures var grown := Grown(plan, page, turn, limit).value;
            && plan <= grown && |grown| <= limit && DistinctUrls(grown)
            && (Opens(page, turn) ==> |grown| >= limit || Covers(grown, turn.site))
            && (!Opens(page, turn) ==> grown == plan)
  {
    GrowthIsSound(plan, page, turn, limit);
    if Opens(page, turn) { MergeCovers(plan, turn.site, limit); }
  }

  lemma {:induction false} ReasonsGrow(turns: seq<Turn>, reason: string)
    requires turns != []
    ensures SomeExplains(turns, reason) <==>
            SomeExplains(turns[..|turns| - 1], reason) || reason in PageReasons(turns[|turns| - 1].fetched)
  {
    var front, last := turns[..|turns| - 1], turns[|turns| - 1];
    assert reason in PageReasons(last.fetched) <==> Explains(last.fetched, reason);
    if i :| 0 <= i < |front| && Explains(front[i].fetched, reason) { assert Explains(turns[i].fetched, reason); }
    if i :| 0 <= i < |turns| && Explains(turns[i].fetched, reason) {
      if i < |front| { assert Explains(front[i].fetched, reason); }
    }
  }

  lemma {:induction false} LaterCovered(before: Progress, p: Progress, turns: seq<Turn>, limit: nat, i: nat)
    requires before.Progress? && p.Progress? && before.plan <= p.plan && |p.plan| <= limit
    requires i < |turns| && i < |before.plan| && Covered(before, turns, limit, i)
    ensures Covered(p, turns, limit, i)
  {
    if Opens(p.plan[i], turns[i]) && |before.plan| < limit { CoverStays(before.plan, p.plan, turns[i].site); }
  }

  ghost predicate AllCovered(start: seq<Page>, turns: seq<Turn>, limit: nat, p: Progress) {
    && p.Progress? && |turns| <= |p.plan|
    && (forall i :: 0 <= i < |turns| ==> Covered(p, turns, limit, i))
    && (NoneOpens(p.plan, turns) ==> p.plan == start)
  }

  lemma {:induction false} NoneOpened(before: seq<Page>, plan: seq<Page>, turns: seq<Turn>)
    requires turns != [] && before <= plan && NoneOpens(plan, turns) && |turns| <= |before|
    ensures NoneOpens(before, turns[..|turns| - 1]) && !Opens(before[|turns| - 1], turns[|turns| - 1])
  {
    forall i | 0 <= i < |turns| ensures !Opens(before[i], turns[i]) {
      assert !Opens(plan[i], turns[i]);
    }
  }

  lemma {:induction false} OneMoreTurn(start: seq<Page>, turns: seq<Turn>, limit: nat, before: Progress, p: Progress)
    requires turns != [] && AllCovered(start, turns[..|turns| - 1], limit, before) && p.Progress?
    requires |turns| <= |before.plan| && before.plan <= p.plan && |p.plan| <= limit
    requires var n := |turns| - 1;
             && Covered(p, turns, limit, n)
             && (!Opens(before.plan[n], turns[n]) ==> p.plan == before.plan)
    ensures AllCovered(start, turns, limit, p)
  {
    var front, n := turns[..|turns| - 1], |turns| - 1;
    forall i | 0 <= i < |turns| ensures Covered(p, turns, limit, i) {
      if i < n {
        assert Covered(before, front, limit, i) && front[i] == turns[i];
        LaterCovered(before, p, turns, limit, i);
      }
    }
    if NoneOpens(p.plan, turns) { NoneOpened(before.plan, p.plan, turns); }
  }

  lemma {:induction false} TurnsCover(start: seq<Page>, turns: seq<Turn>, limit: nat)
    requires limit > 0 && DistinctUrls(start) && |start| <= limit && After(start, turns, limit).Progress?
    ensures AllCovered(start, turns, limit, After(start, turns, limit))
  {
    ProgressIsSound(start, turns, limit);
    if turns != [] {
      var front, n := turns[..|turns| - 1], |turns| - 1;
      var before, p := After(start, front, limit), After(start, turns, limit);
      TurnsCover(start, front, limit);
      ProgressIsSound(start, front, limit);
      PageGrows(before.plan, before.plan[n], turns[n], limit);
      OneMoreTurn(start, turns, limit, before, p);
    }
  }

  lemma {:induction false} TurnsExplain(start: seq<Page>, turns: seq<Turn>, limit: nat, reason: string)
    requires After(start, turns, limit).Progress?
    ensures reason in After(start, turns, limit).reasons <==> SomeExplains(turns, reason)
  {
    if turns != [] {
      TurnsExplain(start, turns[..|turns| - 1], limit, reason);
      ReasonsGrow(turns, reason);
    }
  }

  lemma {:induction false} TurnsMean(start: seq<Page>, turns: seq<Turn>, limit: nat)
    requires limit > 0 && DistinctUrls(start) && |start| <= limit && After(start, turns, limit).Progress?
    ensures TurnsTaken(start, turns, limit, After(start, turns, limit))
  {
    TurnsCover(start, turns, limit);
    forall reason ensures reason in After(start, turns, limit).reasons <==> SomeExplains(turns, reason) {
      TurnsExplain(start, turns, limit, reason);
    }
  }

  ghost function GoodTurns(turns: seq<Turn>, n: nat): set<nat>
    requires n <= |turns|
  {
    set i: nat | i < n && Good(turns[i].fetched)
  }

  lemma {:induction false} CountIsGood(turns: seq<Turn>, n: nat)
    requires n <= |turns|
    ensures CountValid(turns[..n]) == |GoodTurns(turns, n)|
  {
    if n == 0 {
      assert GoodTurns(turns, 0) == {};
    } else {
      assert turns[..n][..n - 1] == turns[..n - 1];
      CountIsGood(turns, n - 1);
      if Good(turns[n - 1].fetched) {
        assert GoodTurns(turns, n) == GoodTurns(turns, n - 1) + {n - 1};
      } else {
        assert GoodTurns(turns, n) == GoodTurns(turns, n - 1);
      }
    }
  }

  /** A finished scan of a site whose first plan was start. One URL was fetched for every page of the final plan. After
      a valid home page every resolved link of its site is fetched unless the limit is; without one exactly the first
      plan is. Status, numbers, records and reasons are those of what happened to the pages. */
  ghost predicate FinishedMeans(start: seq<Page>, turns: seq<Turn>, limit: nat, status: RunStatus, p: Progress,
      fetched: seq<string>)
  {
    var n := |fetched|;
    && 1 <= n <= limit && n <= |turns| && p.Progress? && |p.plan| == n && start <= p.plan
    && (forall i :: 0 <= i < n ==> fetched[i] == p.plan[i].url && !turns[i].cancelled)
    && (forall i, j :: 0 <= i < j < n ==> fetched[i] != fetched[j])
    && TurnsTaken(start, turns[..n], limit, p)
    && p.valid == |GoodTurns(turns, n)| && p.nonvalid == n - p.valid
    && |p.records| == n
    && (forall i :: 0 <= i < n ==> p.records[i] == Record(p.plan[i].kind, Good(turns[i].fetched)))
    && (status == if forall i :: 0 <= i < n ==> Good(turns[i].fetched) then Succeeded
                  else if exists i :: 0 <= i < n && Good(turns[i].fetched) then PartiallySucceeded else Failed)
  }

  lemma {:induction false} StatusMeans(turns: seq<Turn>, n: nat)
    requires 0 < n <= |turns|
    ensures var good := |GoodTurns(turns, n)|;
            && good <= n
            && (good == n <==> forall i :: 0 <= i < n ==> Good(turns[i].fetched))
            && (good > 0 <==> exists i :: 0 <= i < n && Good(turns[i].fetched))
  {
    CountIsGood(turns, n);
    ValidTurns(turns, n);
    forall i | 0 <= i < n ensures Good(turns[i].fetched) <==> IsValid(turns[i].fetched) {
    }
  }

  lemma {:induction false} FinishedScanMeans(site: Site, turns: seq<Turn>, limit: nat, outcome: Outcome,
      fetched: seq<string>)
    requires 0 < limit <= |turns| && OutcomeOk(site, turns, limit, outcome, fetched) && outcome.Finished?
    ensures Plan(site, limit).Some?
    ensures FinishedMeans(Plan(site, limit).value, turns, limit, outcome.status, outcome.progress, fetched)
  {
    var start, n, p := Plan(site, limit).value, |fetched|, outcome.progress;
    PlanIsSound(site, limit);
    ProgressIsSound(start, turns[..n], limit);
    TurnsMean(start, turns[..n], limit);
    FinishedConsumesPlan(site, turns, limit, outcome, fetched);
    CountIsGood(turns, n);
    StatusMeans(turns, n);
    forall i | 0 <= i < n ensures p.records[i] == Record(p.plan[i].kind, Good(turns[i].fetched)) {
      assert turns[..n][i] == turns[i];
    }
  }

  lemma {:induction false} RaisedMeans(start: seq<Page>, turns: seq<Turn>, limit: nat, n: nat)
    requires n < |turns| && limit > 0 && DistinctUrls(start) && |start| <= limit
    requires After(start, turns[..n], limit).Progress? && After(start, turns[..n + 1], limit).Raised?
    requires n < |After(start, turns[..n], limit).plan|
    ensures var p := After(start, turns[..n], limit);
            Opens(p.plan[n], turns[n]) && Plan(turns[n].site, limit).None?
  {
    NextTurn(start, turns, limit, n);
  }

  /** A scan that does not finish: either the run was cancelled before the next page, or the last page was a valid home
      page whose site could not be planned again. */
  lemma {:induction false} UnfinishedScanMeans(site: Site, turns: seq<Turn>, limit: nat, outcome: Outcome,
      fetched: seq<string>)
    requires 0 < limit <= |turns| && OutcomeOk(site, turns, limit, outcome, fetched)
    ensures outcome.PlanningFailed? <==> Plan(site, limit).None?
    ensures outcome.Interrupted? ==>
              var p, n := outcome.progress, |fetched|;
              && outcome.pages == n < limit && p.Progress? && n < |p.plan| && turns[n].cancelled
              && (forall i :: 0 <= i < n ==> fetched[i] == p.plan[i].url && !turns[i].cancelled)
              && TurnsTaken(Plan(site, limit).value, turns[..n], limit, p)
    ensures outcome.HandlerFailed? ==>
              var n := |fetched| - 1;
              && 0 <= n < limit
              && var p := After(Plan(site, limit).value, turns[..n], limit);
              && p.Progress? && n < |p.plan|
              && (forall i :: 0 <= i <= n ==> fetched[i] == p.plan[i].url && !turns[i].cancelled)
              && Opens(p.plan[n], turns[n]) && Plan(turns[n].site, limit).None?
  {
    if Plan(site, limit).Some? {
      var start, n := Plan(site, limit).value, |fetched|;
      PlanIsSound(site, limit);
      if outcome.Interrupted? { TurnsMean(start, turns[..n], limit); }
      if outcome.HandlerFailed? { RaisedMeans(start, turns, limit, n - 1); }
    }
  }
}
