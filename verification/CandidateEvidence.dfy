/** The stored evidence of a candidate: what its writers add, and that they lose none of it. */
module CandidateEvidence {
  import opened Common
  import CandidateAssessment

  /** One stored item of evidence, identified within its candidate by its URL and the digest of its content. */
  datatype EvidenceRow = EvidenceRow(
    url: string,
    hash: string,
    supports: set<string>,
    tier: CandidateAssessment.Tier,
    validation: CandidateAssessment.Validation)

  /** A fetched page and the claims it supports. */
  datatype Page = Page(url: string, hash: string, supports: set<string>)

  predicate SameContent(row: EvidenceRow, url: string, hash: string) {
    row.url == url && row.hash == hash
  }

  function FindContent(rows: seq<EvidenceRow>, url: string, hash: string): (r: Option<nat>)
    ensures r.Some? ==> r.value < |rows| && SameContent(rows[r.value], url, hash)
    ensures r.None? ==> forall i :: 0 <= i < |rows| ==> !SameContent(rows[i], url, hash)
  {
    if rows == [] then None
    else if SameContent(rows[|rows| - 1], url, hash) then Some(|rows| - 1)
    else FindContent(rows[..|rows| - 1], url, hash)
  }

  /** Stored once per content. */
  function WithRow(rows: seq<EvidenceRow>, row: EvidenceRow): seq<EvidenceRow> {
    if FindContent(rows, row.url, row.hash).Some? then rows else rows + [row]
  }

  /** An imported page adds its claims to the row of its content, or a new row of the highest tier. */
  function WithImportedPage(rows: seq<EvidenceRow>, page: Page): seq<EvidenceRow> {
    match FindContent(rows, page.url, page.hash)
    case Some(i) => rows[i := rows[i].(supports := rows[i].supports + page.supports)]
    case None =>
      rows + [EvidenceRow(page.url, page.hash, page.supports, CandidateAssessment.TierA, CandidateAssessment.Valid)]
  }

  function WithImportedPages(rows: seq<EvidenceRow>, pages: seq<Page>): seq<EvidenceRow> {
    if pages == [] then rows else WithImportedPage(WithImportedPages(rows, pages[..|pages| - 1]), pages[|pages| - 1])
  }

  const COUNTRY_EVIDENCE := "country-evidence"

  /** Country evidence makes the row of its content valid and of the highest tier, or adds one. */
  function WithCountryPage(rows: seq<EvidenceRow>, url: string, hash: string): seq<EvidenceRow> {
    match FindContent(rows, url, hash)
    case Some(i) =>
      rows[i := EvidenceRow(url, hash, rows[i].supports + {COUNTRY_EVIDENCE}, CandidateAssessment.TierA,
          CandidateAssessment.Valid)]
    case None =>
      rows + [EvidenceRow(url, hash, {COUNTRY_EVIDENCE}, CandidateAssessment.TierA, CandidateAssessment.Valid)]
  }

  /** The rows as the assessment reads them. */
  function Read(rows: seq<EvidenceRow>): seq<CandidateAssessment.Evidence> {
    if rows == [] then []
    else
      var last := rows[|rows| - 1];
      Read(rows[..|rows| - 1]) + [CandidateAssessment.Evidence(last.url, last.tier, last.validation)]
  }

  // ---------------------------------------------------------------------------
  // The version of the usable evidence
  // ---------------------------------------------------------------------------

  datatype Content = Content(url: string, hash: string, validation: CandidateAssessment.Validation)

  function ContentOf(row: EvidenceRow): Content {
    Content(row.url, row.hash, row.validation)
  }

  predicate UsableRow(row: EvidenceRow) {
    row.validation.Valid? || row.validation.Unverified?
  }

  /** The usable rows in some fixed order, as their digest identifies them: trust tiers and claims are not part of
      it. */
  function Bundle(rows: seq<EvidenceRow>): multiset<Content> {
    if rows == [] then multiset{}
    else
      var last := rows[|rows| - 1];
      Bundle(rows[..|rows| - 1]) + if UsableRow(last) then multiset{ContentOf(last)} else multiset{}
  }

  lemma {:induction false} BundleMembers(rows: seq<EvidenceRow>, content: Content)
    ensures content in Bundle(rows) <==>
            exists i :: 0 <= i < |rows| && UsableRow(rows[i]) && ContentOf(rows[i]) == content
  {
    if rows != [] {
      var front, last := rows[..|rows| - 1], rows[|rows| - 1];
      BundleMembers(front, content);
      if i :| 0 <= i < |rows| && UsableRow(rows[i]) && ContentOf(rows[i]) == content {
        assert i < |front| ==> front[i] == rows[i];
      }
      if UsableRow(last) && ContentOf(last) == content { assert content in multiset{ContentOf(last)}; }
    }
  }

  predicate SameContents(a: seq<EvidenceRow>, b: seq<EvidenceRow>) {
    |a| == |b| && forall i :: 0 <= i < |a| ==> ContentOf(a[i]) == ContentOf(b[i])
  }

  lemma {:induction false} SameBundle(a: seq<EvidenceRow>, b: seq<EvidenceRow>)
    requires SameContents(a, b)
    ensures Bundle(a) == Bundle(b)
  {
    if a != [] {
      assert ContentOf(a[|a| - 1]) == ContentOf(b[|b| - 1]);
      SameBundle(a[..|a| - 1], b[..|b| - 1]);
    }
  }

  predicate Stored(rows: seq<EvidenceRow>, url: string, hash: string) {
    exists i :: 0 <= i < |rows| && SameContent(rows[i], url, hash)
  }

  predicate Names(pages: seq<Page>, url: string, hash: string) {
    exists i :: 0 <= i < |pages| && pages[i].url == url && pages[i].hash == hash
  }

  predicate AllValid(rows: seq<EvidenceRow>) {
    forall i :: 0 <= i < |rows| ==> rows[i].validation.Valid?
  }

  /** Pages that are stored already leave every content where it is. */
  lemma {:induction false} StoredPagesChangeNothing(rows: seq<EvidenceRow>, pages: seq<Page>)
    requires forall i :: 0 <= i < |pages| ==> Stored(rows, pages[i].url, pages[i].hash)
    ensures SameContents(WithImportedPages(rows, pages), rows)
  {
    if pages != [] {
      var front, last := pages[..|pages| - 1], pages[|pages| - 1];
      StoredPagesChangeNothing(rows, front);
      var before := WithImportedPages(rows, front);
      assert Stored(rows, last.url, last.hash);
      var i :| 0 <= i < |rows| && SameContent(rows[i], last.url, last.hash);
      assert ContentOf(before[i]) == ContentOf(rows[i]);
      assert FindContent(before, last.url, last.hash).Some?;
    }
  }

  lemma {:induction false} PageIsStored(rows: seq<EvidenceRow>, page: Page, url: string, hash: string)
    requires AllValid(rows)
    ensures AllValid(WithImportedPage(rows, page))
    ensures Stored(WithImportedPage(rows, page), url, hash) <==>
            Stored(rows, url, hash) || (page.url == url && page.hash == hash)
  {
    var after := WithImportedPage(rows, page);
    if i :| 0 <= i < |rows| && SameContent(rows[i], url, hash) { assert SameContent(after[i], url, hash); }
    if i :| 0 <= i < |after| && SameContent(after[i], url, hash) {
      assert i < |rows| ==> SameContent(rows[i], url, hash);
    }
    var found := FindContent(rows, page.url, page.hash);
    assert SameContent(after[if found.Some? then found.value else |rows|], page.url, page.hash);
  }

  /** Importing pages stores exactly their contents beside those stored before. */
  lemma {:induction false} PagesAreStored(rows: seq<EvidenceRow>, pages: seq<Page>, url: string, hash: string)
    requires AllValid(rows)
    ensures AllValid(WithImportedPages(rows, pages))
    ensures Stored(WithImportedPages(rows, pages), url, hash) <==> Stored(rows, url, hash) || Names(pages, url, hash)
  {
    if pages != [] {
      var front, last := pages[..|pages| - 1], pages[|pages| - 1];
      PagesAreStored(rows, front, url, hash);
      PageIsStored(WithImportedPages(rows, front), last, url, hash);
      assert Names(pages, url, hash) <==> Names(front, url, hash) || (last.url == url && last.hash == hash) by {
        if i :| 0 <= i < |front| && front[i].url == url && front[i].hash == hash { assert pages[i] == front[i]; }
        if i :| 0 <= i < |pages| && pages[i].url == url && pages[i].hash == hash {
          assert i < |front| ==> front[i] == pages[i];
        }
      }
    }
  }

  lemma {:induction false} NewContentChangesBundle(a: seq<EvidenceRow>, b: seq<EvidenceRow>, url: string, hash: string)
    requires AllValid(b) && Stored(b, url, hash) && !Stored(a, url, hash)
    ensures Bundle(a) != Bundle(b)
  {
    var i :| 0 <= i < |b| && SameContent(b[i], url, hash);
    BundleMembers(a, ContentOf(b[i]));
    BundleMembers(b, ContentOf(b[i]));
    assert UsableRow(b[i]);
    assert forall k :: 0 <= k < |a| && ContentOf(a[k]) == ContentOf(b[i]) ==> SameContent(a[k], url, hash);
  }

  /** Some page is none of the earlier ones. */
  predicate NewContent(earlier: seq<Page>, pages: seq<Page>) {
    exists i :: 0 <= i < |pages| && !Names(earlier, pages[i].url, pages[i].hash)
  }

  /** Importing more pages changes the version of the evidence exactly if one of them is new. */
  lemma {:induction false} BundleChangesIff(earlier: seq<Page>, pages: seq<Page>)
    ensures var rows := WithImportedPages([], earlier);
            Bundle(WithImportedPages(rows, pages)) != Bundle(rows) <==> NewContent(earlier, pages)
  {
    var rows := WithImportedPages([], earlier);
    var after := WithImportedPages(rows, pages);
    if i :| 0 <= i < |pages| && !Names(earlier, pages[i].url, pages[i].hash) {
      PagesAreStored([], earlier, pages[i].url, pages[i].hash);
      PagesAreStored(rows, pages, pages[i].url, pages[i].hash);
      NewContentChangesBundle(rows, after, pages[i].url, pages[i].hash);
    } else {
      forall i | 0 <= i < |pages| ensures Stored(rows, pages[i].url, pages[i].hash) {
        PagesAreStored([], earlier, pages[i].url, pages[i].hash);
      }
      StoredPagesChangeNothing(rows, pages);
      SameBundle(after, rows);
    }
  }

  predicate UniqueContent(rows: seq<EvidenceRow>) {
    forall i, j :: 0 <= i < j < |rows| ==> !SameContent(rows[i], rows[j].url, rows[j].hash)
  }

  predicate ValidContent(rows: seq<EvidenceRow>, url: string, hash: string) {
    exists i :: 0 <= i < |rows| && SameContent(rows[i], url, hash) && rows[i].validation.Valid?
  }

  /** Country evidence changes the version of the evidence exactly if its page is not stored as valid already. */
  lemma {:induction false} CountryPageChangesBundleIff(rows: seq<EvidenceRow>, url: string, hash: string)
    requires UniqueContent(rows)
    ensures Bundle(WithCountryPage(rows, url, hash)) != Bundle(rows) <==> !ValidContent(rows, url, hash)
  {
    var after, found := WithCountryPage(rows, url, hash), FindContent(rows, url, hash);
    if i :| 0 <= i < |rows| && SameContent(rows[i], url, hash) && rows[i].validation.Valid? {
      assert found == Some(i);
      SameBundle(after, rows);
    } else {
      var content := Content(url, hash, CandidateAssessment.Valid);
      BundleMembers(rows, content);
      BundleMembers(after, content);
      var at := if found.Some? then found.value else |rows|;
      assert UsableRow(after[at]) && ContentOf(after[at]) == content;
      assert forall k :: 0 <= k < |rows| && ContentOf(rows[k]) == content ==> SameContent(rows[k], url, hash);
    }
  }

  // ---------------------------------------------------------------------------
  // Evidence is never lost
  // ---------------------------------------------------------------------------

  /** No row is lost or moved to another content, and none loses a claim it supports. */
  predicate Grows(before: seq<EvidenceRow>, after: seq<EvidenceRow>) {
    && |before| <= |after|
    && forall i :: 0 <= i < |before| ==>
         SameContent(after[i], before[i].url, before[i].hash) && before[i].supports <= after[i].supports
  }

  predicate Kept(before: seq<EvidenceRow>, after: seq<EvidenceRow>) {
    Grows(before, after) && (UniqueContent(before) ==> UniqueContent(after))
  }

  lemma {:induction false} SameKept(rows: seq<EvidenceRow>)
    ensures Kept(rows, rows)
  {
  }

  lemma {:induction false} RowKept(rows: seq<EvidenceRow>, row: EvidenceRow)
    ensures Kept(rows, WithRow(rows, row))
  {
  }

  lemma {:induction false} CountryPageKept(rows: seq<EvidenceRow>, url: string, hash: string)
    ensures Kept(rows, WithCountryPage(rows, url, hash))
  {
  }

  lemma {:induction false} ImportedPageKept(rows: seq<EvidenceRow>, page: Page)
    ensures Kept(rows, WithImportedPage(rows, page))
  {
  }

  lemma {:induction false} GrowsTwice(a: seq<EvidenceRow>, b: seq<EvidenceRow>, c: seq<EvidenceRow>)
    requires Grows(a, b) && Grows(b, c)
    ensures Grows(a, c)
  {
    forall i | 0 <= i < |a| ensures SameContent(c[i], a[i].url, a[i].hash) && a[i].supports <= c[i].supports {
      assert SameContent(b[i], a[i].url, a[i].hash) && SameContent(c[i], b[i].url, b[i].hash);
    }
  }

  lemma {:induction false} KeptTwice(a: seq<EvidenceRow>, b: seq<EvidenceRow>, c: seq<EvidenceRow>)
    requires Kept(a, b) && Kept(b, c)
    ensures Kept(a, c)
  {
    forall i | 0 <= i < |a| ensures SameContent(c[i], a[i].url, a[i].hash) && a[i].supports <= c[i].supports {
      assert SameContent(b[i], a[i].url, a[i].hash) && SameContent(c[i], b[i].url, b[i].hash);
    }
  }

  lemma {:induction false} ImportedPagesKept(rows: seq<EvidenceRow>, pages: seq<Page>)
    ensures Kept(rows, WithImportedPages(rows, pages))
  {
    if pages != [] {
      var before := WithImportedPages(rows, pages[..|pages| - 1]);
      ImportedPagesKept(rows, pages[..|pages| - 1]);
      ImportedPageKept(before, pages[|pages| - 1]);
      KeptTwice(rows, before, WithImportedPages(rows, pages));
    }
  }
}
