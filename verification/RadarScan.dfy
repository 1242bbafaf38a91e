/**
 A competitor scan: planning the pages of a site, and the loop that fetches them while the plan
 grows. URL resolution, fetching and storing a page are parameters.
 */
module RadarScan {
  import opened Common

  // ---------------------------------------------------------------------------
  // Planning
  // ---------------------------------------------------------------------------

  datatype Kind = Home | Product | Dealers | Partners | Contact | About | OtherKind

  datatype Page = Page(url: string, kind: Kind)

  /** A configured or observed link after resolution; a refused configured link fails the planning, a refused
      observed link is passed over. */
  datatype Link = Refused | Resolved(url: string, kind: Kind)

  /** What planning sees of the site: its home page if it resolves to the right domain, the configured pages and
      the links observed on the home page. */
  datatype Site = Site(home: Option<string>, seeds: seq<Link>, observed: seq<Link>)

  predicate Planned(plan: seq<Page>, url: string) {
    exists i :: 0 <= i < |plan| && plan[i].url == url
  }

  predicate DistinctUrls(plan: seq<Page>) {
    forall i, j :: 0 <= i < j < |plan| ==> plan[i].url != plan[j].url
  }

  function Appended(plan: seq<Page>, link: Link): seq<Page> {
    if link.Refused? || Planned(plan, link.url) then plan else plan + [Page(link.url, link.kind)]
  }

  /** The links in order, each appended while there is room. */
  function WithLinks(plan: seq<Page>, links: seq<Link>, limit: nat): seq<Page> {
    if links == [] then plan
    else
      var before := WithLinks(plan, links[..|links| - 1], limit);
      if |before| >= limit then before else Appended(before, links[|links| - 1])
  }

  /** Whether a refused link is reached before the plan is full. */
  predicate Fails(plan: seq<Page>, links: seq<Link>, limit: nat) {
    links != [] &&
    (Fails(plan, links[..|links| - 1], limit) ||
     (|WithLinks(plan, links[..|links| - 1], limit)| < limit && links[|links| - 1].Refused?))
  }

  function Clamp(n: int): nat {
    if n < 1 then 1 else if n > 25 then 25 else n
  }

  /** The page limit of a budget: 10 unless it holds a number, then that number forced into 1..25. */
  function PageLimit(budget: Option<int>): (limit: nat)
    ensures 1 <= limit <= 25
  {
    if budget.None? then 10 else Clamp(budget.value)
  }

  function Plan(site: Site, limit: nat): Option<seq<Page>> {
    if site.home.None? then None
    else
      var start := [Page(site.home.value, Home)];
      if Fails(start, site.seeds, limit) then None
      else Some(WithLinks(WithLinks(start, site.seeds, limit), site.observed, limit))
  }

  lemma {:induction false} LinksKeepPlan(plan: seq<Page>, links: seq<Link>, limit: nat)
    requires DistinctUrls(plan) && |plan| <= limit
    ensures var r := WithLinks(plan, links, limit);
            plan <= r && |r| <= limit && DistinctUrls(r)
  {
    if links != [] { LinksKeepPlan(plan, links[..|links| - 1], limit); }
  }

  function LinkOf(page: Page): Link {
    Resolved(page.url, page.kind)
  }

  lemma {:induction false} LinksAddOnlyLinks(plan: seq<Page>, links: seq<Link>, limit: nat, i: nat)
    requires i < |WithLinks(plan, links, limit)|
    ensures WithLinks(plan, links, limit)[i] in plan
        || (exists k :: 0 <= k < |links| && links[k] == LinkOf(WithLinks(plan, links, limit)[i]))
  {
    if links != [] {
      var front := links[..|links| - 1];
      var before := WithLinks(plan, front, limit);
      if i < |before| {
        LinksAddOnlyLinks(plan, front, limit, i);
        if before[i] !in plan {
          var k :| 0 <= k < |front| && front[k] == LinkOf(before[i]);
          assert links[k] == LinkOf(before[i]);
        }
      } else {
        assert links[|links| - 1] == LinkOf(WithLinks(plan, links, limit)[i]);
      }
    }
  }

  /** With room left at the end, every link that is not refused has its page. */
  lemma {:induction false} LinksAllPlanned(plan: seq<Page>, links: seq<Link>, limit: nat, k: nat)
    requires |WithLinks(plan, links, limit)| < limit && k < |links| && links[k].Resolved?
    ensures Planned(WithLinks(plan, links, limit), links[k].url)
  {
    var front := links[..|links| - 1];
    var before := WithLinks(plan, front, limit);
    if k < |front| {
      LinksAllPlanned(plan, front, limit, k);
      var i :| 0 <= i < |before| && before[i].url == links[k].url;
      assert WithLinks(plan, links, limit)[i].url == links[k].url;
    } else if !Planned(before, links[k].url) {
      assert WithLinks(plan, links, limit)[|before|].url == links[k].url;
    }
  }

  /** A plan starts with the home page, has distinct URLs, respects the limit, and every other page is one of the
      links; if it stops short of the limit it has left none out. */
  lemma {:induction false} PlanIsSound(site: Site, limit: nat)
    requires limit > 0 && Plan(site, limit).Some?
    ensures var plan := Plan(site, limit).value;
            && 1 <= |plan| <= limit && DistinctUrls(plan)
            && plan[0] == Page(site.home.value, Home)
            && (|plan| < limit ==>
                  forall k ::
                    0 <= k < |site.observed| && site.observed[k].Resolved?
                    ==> Planned(plan, site.observed[k].url))
  {
    var start := [Page(site.home.value, Home)];
    LinksKeepPlan(start, site.seeds, limit);
    var seeded := WithLinks(start, site.seeds, limit);
    LinksKeepPlan(seeded, site.observed, limit);
    var plan := Plan(site, limit).value;
    assert plan[0] == seeded[0];
    if |plan| < limit {
      forall k | 0 <= k < |site.observed| && site.observed[k].Resolved? ensures Planned(plan, site.observed[k].url) {
        LinksAllPlanned(seeded, site.observed, limit, k);
      }
    }
  }

  lemma {:induction false} FullStays(plan: seq<Page>, links: seq<Link>, limit: nat, n: nat)
    requires n <= |links| && |WithLinks(plan, links[..n], limit)| >= limit
    ensures WithLinks(plan, links, limit) == WithLinks(plan, links[..n], limit)
    ensures Fails(plan, links, limit) == Fails(plan, links[..n], limit)
    decreases |links|
  {
    if n == |links| {
      assert links[..n] == links;
    } else {
      assert links[..|links| - 1][..n] == links[..n];
      FullStays(plan, links[..|links| - 1], limit, n);
    }
  }

  lemma {:induction false} FailureStays(plan: seq<Page>, links: seq<Link>, limit: nat, n: nat)
    requires n <= |links| && Fails(plan, links[..n], limit)
    ensures Fails(plan, links, limit)
    decreases |links|
  {
    if n == |links| {
      assert links[..n] == links;
    } else {
      assert links[..|links| - 1][..n] == links[..n];
      FailureStays(plan, links[..|links| - 1], limit, n);
    }
  }

  method AppendLinks(start: seq<Page>, links: seq<Link>, limit: nat, strict: bool) returns (plan: Option<seq<Page>>)
    ensures plan == if strict && Fails(start, links, limit) then None else Some(WithLinks(start, links, limit))
  {
    var planned := start;
    var seen := set p | p in start :: p.url;
    assert forall url :: url in seen <==> Planned(planned, url);
    for k := 0 to |links|
      invariant planned == WithLinks(start, links[..k], limit)
      invariant strict ==> !Fails(start, links[..k], limit)
      invariant forall url :: url in seen <==> Planned(planned, url)
    {
      assert links[..k + 1][..k] == links[..k];
      if |planned| >= limit {
        FullStays(start, links, limit, k);
        return Some(planned);
      }
      if links[k].Refused? {
        if strict {
          FailureStays(start, links, limit, k + 1);
          return None;
        }
        continue;
      }
      if links[k].url !in seen {
        ghost var before := planned;
        planned := planned + [Page(links[k].url, links[k].kind)];
        seen := seen + {links[k].url};
        assert planned[|before|].url == links[k].url;
        forall url ensures url in seen <==> Planned(planned, url) {
          if Planned(before, url) {
            var i :| 0 <= i < |before| && before[i].url == url;
            assert planned[i].url == url;
          }
        }
      }
    }
    assert links[..|links|] == links;
    plan := Some(planned);
  }

  /** The loops of the planner, with the set of URLs already seen. */
  method PlanPages(site: Site, limit: nat) returns (plan: Option<seq<Page>>)
    requires limit > 0
    ensures plan == Plan(site, limit)
  {
    if site.home.None? {
      return None;
    }
    var start := [Page(site.home.value, Home)];
    var seeded := AppendLinks(start, site.seeds, limit, true);
    if seeded.None? {
      return None;
    }
    plan := AppendLinks(seeded.value, site.observed, limit, false);
  }

  // ---------------------------------------------------------------------------
  // Merging a second plan
  // ---------------------------------------------------------------------------

  function Links(plan: seq<Page>): seq<Link> {
    seq(|plan|, i requires 0 <= i < |plan| => LinkOf(plan[i]))
  }

  /** Pages of the second plan whose URL is new, while there is room. */
  function Merged(existing: seq<Page>, observed: seq<Page>, limit: nat): seq<Page> {
    WithLinks(existing, Links(observed), limit)
  }

  /** Merging keeps the existing plan as a prefix with distinct URLs within the limit, adds only pages of the second
      plan, and leaves none of them out unless the limit is reached. */
  lemma {:induction false} MergeKeepsPlan(existing: seq<Page>, observed: seq<Page>, limit: nat)
    requires DistinctUrls(existing) && |existing| <= limit
    ensures var merged := Merged(existing, observed, limit);
            && existing <= merged && |merged| <= limit && DistinctUrls(merged)
            && (forall i :: 0 <= i < |merged| ==> merged[i] in existing || merged[i] in observed)
            && (|merged| < limit ==> forall k :: 0 <= k < |observed| ==> Planned(merged, observed[k].url))
  {
    var merged, links := Merged(existing, observed, limit), Links(observed);
    LinksKeepPlan(existing, links, limit);
    forall i | 0 <= i < |merged| ensures merged[i] in existing || merged[i] in observed {
      LinksAddOnlyLinks(existing, links, limit, i);
      if merged[i] !in existing {
        var k :| 0 <= k < |links| && links[k] == LinkOf(merged[i]);
        assert observed[k] == merged[i];
      }
    }
    if |merged| < limit {
      forall k | 0 <= k < |observed| ensures Planned(merged, observed[k].url) {
        LinksAllPlanned(existing, links, limit, k);
      }
    }
  }

  method MergePlans(existing: seq<Page>, observed: seq<Page>, limit: nat) returns (merged: seq<Page>)
    ensures merged == Merged(existing, observed, limit)
  {
    var links := Links(observed);
    merged := existing;
    var seen := set p | p in existing :: p.url;
    assert forall url :: url in seen <==> Planned(merged, url);
    for k := 0 to |observed|
      invariant merged == WithLinks(existing, links[..k], limit)
      invariant forall url :: url in seen <==> Planned(merged, url)
    {
      assert links[..k + 1][..k] == links[..k];
      if |merged| >= limit {
        FullStays(existing, links, limit, k);
        return;
      }
      if observed[k].url !in seen {
        ghost var before := merged;
        merged := merged + [observed[k]];
        seen := seen + {observed[k].url};
        assert merged[|before|].url == observed[k].url;
        forall url ensures url in seen <==> Planned(merged, url) {
          if Planned(before, url) {
            var i :| 0 <= i < |before| && before[i].url == url;
            assert merged[i].url == url;
          }
        }
      }
    }
    assert links[..|links|] == links;
  }

  // ---------------------------------------------------------------------------
  // The scan
  // ---------------------------------------------------------------------------

  /** What happens to one page: the fetch fails, the fetched page is rejected, or it is stored, valid or not. */
  datatype Fetched = Unreachable(reason: string) | FinalUrlRejected | Stored(valid: bool, reasons: set<string>)

  /** One turn of the loop: whether the run has been cancelled meanwhile, the outcome of the page, and the site as
      the second planning would see it. */
  datatype Turn = Turn(cancelled: bool, fetched: Fetched, site: Site)

  datatype Record = Record(kind: Kind, valid: bool)

  datatype RunStatus = Queued | Running | Succeeded | PartiallySucceeded | Failed | Cancelled

  predicate IsValid(f: Fetched) {
    f.Stored? && f.valid
  }

  predicate Regrows(page: Page, turn: Turn) {
    page.kind.Home? && IsValid(turn.fetched)
  }

  function PageReasons(f: Fetched): set<string> {
    match f
    case Unreachable(reason) => {reason}
    case FinalUrlRejected => {"final_url_rejected"}
    case Stored(valid, reasons) => if valid then {} else reasons
  }

  /** The scan after n complete turns. */
  datatype Progress = Progress(plan: seq<Page>, valid: nat, nonvalid: nat, reasons: set<string>,
      records: seq<Record>) | Raised

  /** The plan after one page: a valid home page has the site planned again and merged; that planning may fail. */
  function Grown(plan: seq<Page>, page: Page, turn: Turn, limit: nat): Option<seq<Page>> {
    if !Regrows(page, turn) then Some(plan)
    else
      match Plan(turn.site, limit)
      case None => None
      case Some(observed) => Some(Merged(plan, observed, limit))
  }

  function AfterPage(p: Progress, page: Page, turn: Turn, limit: nat): Progress
    requires p.Progress?
  {
    var grown := Grown(p.plan, page, turn, limit);
    var valid := IsValid(turn.fetched);
    if grown.None? then Raised
    else
      Progress(grown.value, p.valid + (if valid then 1 else 0), p.nonvalid + (if valid then 0 else 1),
               p.reasons + PageReasons(turn.fetched), p.records + [Record(page.kind, valid)])
  }

  function After(start: seq<Page>, turns: seq<Turn>, limit: nat): Progress {
    if turns == [] then Progress(start, 0, 0, {}, [])
    else
      var p := After(start, turns[..|turns| - 1], limit);
      if p.Raised? || |turns| > |p.plan| then Raised
      else
        AfterPage(p, p.plan[|turns| - 1], turns[|turns| - 1], limit)
  }

  function CountValid(turns: seq<Turn>): (n: nat)
    ensures n <= |turns|
  {
    if turns == [] then 0 else CountValid(turns[..|turns| - 1]) + if IsValid(turns[|turns| - 1].fetched) then 1 else 0
  }

  /** After every page, valid and invalid pages together are the pages consumed, each of which has one record of its
      own planned page; the plan only grows at its end, keeps its URLs distinct and stays within the limit. */
  lemma {:induction false} ProgressIsSound(start: seq<Page>, turns: seq<Turn>, limit: nat)
    requires limit > 0 && DistinctUrls(start) && |start| <= limit && After(start, turns, limit).Progress?
    ensures var p := After(start, turns, limit);
            && p.valid + p.nonvalid == |p.records| == |turns| <= |p.plan| <= limit
            && p.valid == CountValid(turns)
            && start <= p.plan && DistinctUrls(p.plan)
            && (forall i :: 0 <= i < |turns| ==> p.records[i] == Record(p.plan[i].kind, IsValid(turns[i].fetched)))
  {
    if turns != [] {
      var p := After(start, turns[..|turns| - 1], limit);
      ProgressIsSound(start, turns[..|turns| - 1], limit);
      var page, turn := p.plan[|turns| - 1], turns[|turns| - 1];
      if Regrows(page, turn) {
        LinksKeepPlan(p.plan, Links(Plan(turn.site, limit).value), limit);
      }
    }
  }

  /** The prefix of the turns is a stage of the scan, and its plan a prefix of every later plan. */
  lemma {:induction false} EarlierPlanIsPrefix(start: seq<Page>, turns: seq<Turn>, limit: nat, n: nat)
    requires limit > 0 && DistinctUrls(start) && |start| <= limit && After(start, turns, limit).Progress?
        && n <= |turns|
    ensures After(start, turns[..n], limit).Progress?
    ensures After(start, turns[..n], limit).plan <= After(start, turns, limit).plan
    decreases |turns|
  {
    if n == |turns| {
      assert turns[..n] == turns;
    } else {
      var front := turns[..|turns| - 1];
      assert front[..n] == turns[..n];
      EarlierPlanIsPrefix(start, front, limit, n);
      ProgressIsSound(start, front, limit);
      var p := After(start, front, limit);
      var page, turn := p.plan[|turns| - 1], turns[|turns| - 1];
      if Regrows(page, turn) {
        LinksKeepPlan(p.plan, Links(Plan(turn.site, limit).value), limit);
      }
    }
  }

  /** The URL fetched in a turn: that of the next page in the plan as it then was. */
  function FetchedUrl(start: seq<Page>, turns: seq<Turn>, limit: nat, i: nat): string
    requires i < |turns| && limit > 0 && DistinctUrls(start) && |start| <= limit && After(start, turns, limit).Progress?
  {
    ProgressIsSound(start, turns, limit);
    EarlierPlanIsPrefix(start, turns, limit, i);
    EarlierPlanIsPrefix(start, turns, limit, i + 1);
    assert turns[..i + 1][..i] == turns[..i];
    After(start, turns[..i], limit).plan[i].url
  }

  lemma {:induction false} FetchedIsPlanned(start: seq<Page>, turns: seq<Turn>, limit: nat, i: nat)
    requires i < |turns| && limit > 0 && DistinctUrls(start) && |start| <= limit && After(start, turns, limit).Progress?
    ensures i < |After(start, turns, limit).plan|
    ensures FetchedUrl(start, turns, limit, i) == After(start, turns, limit).plan[i].url
  {
    ProgressIsSound(start, turns, limit);
    EarlierPlanIsPrefix(start, turns, limit, i);
    EarlierPlanIsPrefix(start, turns, limit, i + 1);
    assert turns[..i + 1][..i] == turns[..i];
    assert After(start, turns[..i], limit).plan[i] == After(start, turns, limit).plan[i];
  }

  /** No URL is fetched twice, although the plan grows while it is consumed. */
  lemma {:induction false} NoUrlFetchedTwice(start: seq<Page>, turns: seq<Turn>, limit: nat, i: nat, j: nat)
    requires i < j < |turns| && limit > 0 && DistinctUrls(start) && |start| <= limit
        && After(start, turns, limit).Progress?
    ensures FetchedUrl(start, turns, limit, i) != FetchedUrl(start, turns, limit, j)
  {
    ProgressIsSound(start, turns, limit);
    FetchedIsPlanned(start, turns, limit, i);
    FetchedIsPlanned(start, turns, limit, j);
  }

  datatype Outcome =
    | PlanningFailed
    | Interrupted(pages: nat, progress: Progress)
    | HandlerFailed
    | Finished(status: RunStatus, progress: Progress)

  function FinalStatus(valid: nat, nonvalid: nat): RunStatus {
    if valid > 0 && nonvalid == 0 then Succeeded else if valid > 0 then PartiallySucceeded else Failed
  }

  predicate AllFetched(plan: seq<Page>, turns: seq<Turn>, fetched: seq<string>)
    requires |fetched| <= |turns|
  {
    |fetched| <= |plan| && forall k :: 0 <= k < |fetched| ==> !turns[k].cancelled && fetched[k] == plan[k].url
  }

  ghost predicate ScannedOk(start: seq<Page>, turns: seq<Turn>, limit: nat, outcome: Outcome, fetched: seq<string>)
    requires limit <= |turns|
  {
    var n := |fetched|;
    match outcome
    case PlanningFailed => false
    case Finished(status, p) =>
      && n <= limit && p.Progress? && p == After(start, turns[..n], limit)
      && n == |p.plan| && status == FinalStatus(p.valid, p.nonvalid)
      && AllFetched(p.plan, turns, fetched)
    case Interrupted(pages, p) =>
      && n < limit && pages == n && p.Progress? && p == After(start, turns[..n], limit)
      && n < |p.plan| && turns[n].cancelled
      && AllFetched(p.plan, turns, fetched)
    case HandlerFailed =>
      && 0 < n <= limit
      && After(start, turns[..n], limit) == Raised
      && var p := After(start, turns[..n - 1], limit);
         p.Progress? && n <= |p.plan| && AllFetched(p.plan, turns, fetched)
  }

  /** What the outcome says about the turns taken, one per fetched URL. */
  ghost predicate OutcomeOk(site: Site, turns: seq<Turn>, limit: nat, outcome: Outcome, fetched: seq<string>)
    requires 0 < limit <= |turns|
  {
    match Plan(site, limit)
    case None => outcome.PlanningFailed? && fetched == []
    case Some(start) => ScannedOk(start, turns, limit, outcome, fetched)
  }

  lemma {:induction false} FetchedStays(plan: seq<Page>, grown: seq<Page>, turns: seq<Turn>, fetched: seq<string>)
    requires |fetched| <= |turns| && AllFetched(plan, turns, fetched) && plan <= grown
    ensures AllFetched(grown, turns, fetched)
  {
  }

  method RecordPage(page: Page, fetched: Fetched, valid: nat, nonvalid: nat, reasons: set<string>, records: seq<Record>)
    returns (valid': nat, nonvalid': nat, reasons': set<string>, records': seq<Record>)
    ensures valid' == valid + (if IsValid(fetched) then 1 else 0)
        && nonvalid' == nonvalid + (if IsValid(fetched) then 0 else 1)
    ensures reasons' == reasons + PageReasons(fetched) && records' == records + [Record(page.kind, IsValid(fetched))]
  {
    valid', nonvalid', reasons', records' := valid, nonvalid, reasons, records;
    match fetched
    case Unreachable(reason) =>
      records' := records + [Record(page.kind, false)];
      nonvalid' := nonvalid + 1;
      reasons' := reasons + {reason};
    case FinalUrlRejected =>
      nonvalid' := nonvalid + 1;
      reasons' := reasons + {"final_url_rejected"};
      records' := records + [Record(page.kind, false)];
    case Stored(ok, why) =>
      records' := records + [Record(page.kind, ok)];
      if ok {
        valid' := valid + 1;
      } else {
        nonvalid' := nonvalid + 1;
        reasons' := reasons + why;
      }
  }

  method GrowPlan(plan: seq<Page>, page: Page, turn: Turn, limit: nat) returns (grown: Option<seq<Page>>)
    requires limit > 0
    ensures grown == Grown(plan, page, turn, limit)
  {
    grown := Some(plan);
    if page.kind == Home && IsValid(turn.fetched) {
      var observed := PlanPages(turn.site, limit);
      if observed.None? {
        return None;
      }
      var merged := MergePlans(plan, observed.value, limit);
      grown := Some(merged);
    }
  }

  /** Record one page, and plan again after a valid home page. */
  method TakeTurn(planned: seq<Page>, valid: nat, nonvalid: nat, reasons: set<string>, records: seq<Record>, page: Page,
                  turn: Turn, limit: nat)
    returns (next: Progress)
    requires limit > 0
    ensures next == AfterPage(Progress(planned, valid, nonvalid, reasons, records), page, turn, limit)
  {
    var valid', nonvalid', reasons', records' := RecordPage(page, turn.fetched, valid, nonvalid, reasons, records);
    var grown := GrowPlan(planned, page, turn, limit);
    next := if grown.None? then Raised else Progress(grown.value, valid', nonvalid', reasons', records');
  }

  lemma {:induction false} GrowthIsSound(plan: seq<Page>, page: Page, turn: Turn, limit: nat)
    requires DistinctUrls(plan) && |plan| <= limit && Grown(plan, page, turn, limit).Some?
    ensures var grown := Grown(plan, page, turn, limit).value; plan <= grown && |grown| <= limit && DistinctUrls(grown)
  {
    if Regrows(page, turn) { LinksKeepPlan(plan, Links(Plan(turn.site, limit).value), limit); }
  }

  lemma {:induction false} NextTurn(start: seq<Page>, turns: seq<Turn>, limit: nat, n: nat)
    requires n < |turns| && After(start, turns[..n], limit).Progress? && n < |After(start, turns[..n], limit).plan|
    ensures var p := After(start, turns[..n], limit);
            After(start, turns[..n + 1], limit) == AfterPage(p, p.plan[n], turns[n], limit)
  {
    assert turns[..n + 1][..n] == turns[..n];
  }

  lemma {:induction false} TurnTaken(start: seq<Page>, turns: seq<Turn>, limit: nat, p: Progress, fetched: seq<string>)
    requires |fetched| < limit <= |turns| && p.Progress? && p == After(start, turns[..|fetched|], limit)
    requires |fetched| < |p.plan| <= limit && DistinctUrls(p.plan) && AllFetched(p.plan, turns, fetched)
    requires !turns[|fetched|].cancelled
    ensures var n := |fetched|;
            var next := AfterPage(p, p.plan[n], turns[n], limit);
            && next == After(start, turns[..n + 1], limit)
            && (next.Progress? ==>
                  n + 1 <= |next.plan| <= limit && DistinctUrls(next.plan)
                  && AllFetched(next.plan, turns, fetched + [p.plan[n].url]))
            && (next.Raised? ==> n < limit && ScannedOk(start, turns, limit, HandlerFailed, fetched + [p.plan[n].url]))
  {
    var page, turn := p.plan[|fetched|], turns[|fetched|];
    NextTurn(start, turns, limit, |fetched|);
    var next := AfterPage(p, page, turn, limit);
    if next.Progress? {
      GrowthIsSound(p.plan, page, turn, limit);
      FetchedStays(p.plan, next.plan, turns, fetched + [page.url]);
    }
  }

  /** The scan loop. */
  method ScanPages(start: seq<Page>, turns: seq<Turn>, limit: nat) returns (outcome: Outcome, fetched: seq<string>)
    requires 0 < limit <= |turns| && |start| <= limit && DistinctUrls(start)
    ensures ScannedOk(start, turns, limit, outcome, fetched)
  {
    fetched := [];
    var planned := start;
    var index, valid, nonvalid := 0, 0, 0;
    var reasons: set<string> := {};
    var records: seq<Record> := [];
    while index < |planned|
      invariant index <= |planned| <= limit && |fetched| == index && DistinctUrls(planned)
      invariant After(start, turns[..index], limit) == Progress(planned, valid, nonvalid, reasons, records)
      invariant AllFetched(planned, turns, fetched)
      decreases limit - index
    {
      var page, turn := planned[index], turns[index];
      if turn.cancelled {
        return Interrupted(index, Progress(planned, valid, nonvalid, reasons, records)), fetched;
      }
      TurnTaken(start, turns, limit, Progress(planned, valid, nonvalid, reasons, records), fetched);
      index := index + 1;
      fetched := fetched + [page.url];
      var next := TakeTurn(planned, valid, nonvalid, reasons, records, page, turn, limit);
      if next.Raised? {
        return HandlerFailed, fetched;
      }
      planned, valid, nonvalid, reasons, records := next.plan, next.valid, next.nonvalid, next.reasons, next.records;
    }
    var status := Failed;
    if valid > 0 && nonvalid == 0 {
      status := Succeeded;
    } else if valid > 0 {
      status := PartiallySucceeded;
    }
    outcome := Finished(status, Progress(planned, valid, nonvalid, reasons, records));
  }

  /** Plan the site, then scan its pages. What each turn meets is given for as many turns as the limit allows. */
  method Scan(site: Site, turns: seq<Turn>, budget: Option<int>) returns (outcome: Outcome, fetched: seq<string>)
    requires PageLimit(budget) <= |turns|
    ensures OutcomeOk(site, turns, PageLimit(budget), outcome, fetched)
  {
    var limit := PageLimit(budget);
    var first := PlanPages(site, limit);
    if first.None? {
      return PlanningFailed, [];
    }
    PlanIsSound(site, limit);
    outcome, fetched := ScanPages(first.value, turns, limit);
  }

  /** A finished scan has consumed its whole plan: one turn, one fetched URL and one valid or invalid page for each. */
  lemma {:induction false} FinishedConsumesPlan(site: Site, turns: seq<Turn>, limit: nat, outcome: Outcome,
      fetched: seq<string>)
    requires 0 < limit <= |turns| && OutcomeOk(site, turns, limit, outcome, fetched) && outcome.Finished?
    ensures 1 <= |fetched| <= limit
    ensures var p := outcome.progress;
            && p.Progress? && DistinctUrls(p.plan) && AllFetched(p.plan, turns, fetched)
            && p.valid == CountValid(turns[..|fetched|]) && p.valid + p.nonvalid == |fetched|
            && outcome.status == FinalStatus(p.valid, p.nonvalid)
  {
    PlanIsSound(site, limit);
    ProgressIsSound(Plan(site, limit).value, turns[..|fetched|], limit);
  }

  lemma {:induction false} ValidTurns(turns: seq<Turn>, n: nat)
    requires n <= |turns|
    ensures CountValid(turns[..n]) <= n
    ensures CountValid(turns[..n]) == n <==> forall k :: 0 <= k < n ==> IsValid(turns[k].fetched)
    ensures CountValid(turns[..n]) == 0 <==> forall k :: 0 <= k < n ==> !IsValid(turns[k].fetched)
  {
    if n > 0 {
      assert turns[..n][..n - 1] == turns[..n - 1];
      ValidTurns(turns, n - 1);
    }
  }

  /** The final status tells what happened to the pages consumed: succeeded means every one was valid, failed that
      none was, partial that both kinds occurred. There is always at least one page. */
  lemma {:induction false} StatusTellsPages(site: Site, turns: seq<Turn>, limit: nat, outcome: Outcome,
      fetched: seq<string>)
    requires 0 < limit <= |turns| && OutcomeOk(site, turns, limit, outcome, fetched) && outcome.Finished?
    ensures 1 <= |fetched| <= limit
    ensures outcome.status.Succeeded? <==> forall k :: 0 <= k < |fetched| ==> IsValid(turns[k].fetched)
    ensures outcome.status.Failed? <==> forall k :: 0 <= k < |fetched| ==> !IsValid(turns[k].fetched)
    ensures forall i, j :: 0 <= i < j < |fetched| ==> fetched[i] != fetched[j]
  {
    FinishedConsumesPlan(site, turns, limit, outcome, fetched);
    ValidTurns(turns, |fetched|);
  }
}
