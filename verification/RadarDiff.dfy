/**
 The structural difference of two snapshots. Each snapshot is read as a map from fact keys to
 values; the delta lists what was added, what was removed and what changed. Values are
 compared as the runtime compares them, which does not tell true from 1 or 1 from 1.0.
 */
module RadarDiff {
  import opened Common
  import opened Ordering

  // ---------------------------------------------------------------------------
  // Values
  // ---------------------------------------------------------------------------

  datatype Json =
    | Null
    | Bool(b: bool)
    | Int(n: int)
    | Float(x: real)
    | Text(s: string)
    | List(items: seq<Json>)
    | Object(fields: map<string, Json>)

  predicate Numeric(v: Json) {
    v.Bool? || v.Int? || v.Float?
  }

  function Number(v: Json): real
    requires Numeric(v)
  {
    match v
    case Bool(b) => if b then 1.0 else 0.0
    case Int(n) => n as real
    case Float(x) => x
  }

  /** Equality of the runtime. */
  predicate Same(a: Json, b: Json)
    decreases a
  {
    if Numeric(a) && Numeric(b) then Number(a) == Number(b)
    else if a.Null? then b.Null?
    else if a.Text? then b == a
    else if a.List? then
      b.List? && |a.items| == |b.items| && forall i :: 0 <= i < |a.items| ==> Same(a.items[i], b.items[i])
    else if a.Object? then
      b.Object? && a.fields.Keys == b.fields.Keys &&
      forall k :: k in a.fields ==> k in b.fields && Same(a.fields[k], b.fields[k])
    else false
  }

  lemma {:induction false} SameReflexive(a: Json)
    ensures Same(a, a)
    decreases a
  {
    match a
    case List(xs) =>
      forall i | 0 <= i < |xs| ensures Same(xs[i], xs[i]) { SameReflexive(xs[i]); }
    case Object(f) =>
      forall k | k in f ensures Same(f[k], f[k]) { SameReflexive(f[k]); }
    case _ =>
  }

  lemma {:induction false} SameSymmetric(a: Json, b: Json)
    requires Same(a, b)
    ensures Same(b, a)
    decreases a
  {
    match (a, b)
    case (List(xs), List(ys)) =>
      forall i | 0 <= i < |xs| ensures Same(ys[i], xs[i]) { SameSymmetric(xs[i], ys[i]); }
    case (Object(f), Object(g)) =>
      forall k | k in g ensures k in f && Same(g[k], f[k]) {
        assert k in f.Keys;
        SameSymmetric(f[k], g[k]);
      }
    case _ =>
  }

  lemma {:induction false} SameTransitive(a: Json, b: Json, c: Json)
    requires Same(a, b) && Same(b, c)
    ensures Same(a, c)
    decreases a
  {
    match (a, b, c)
    case (List(xs), List(ys), List(zs)) =>
      forall i | 0 <= i < |xs| ensures Same(xs[i], zs[i]) { SameTransitive(xs[i], ys[i], zs[i]); }
    case (Object(f), Object(g), Object(h)) =>
      forall k | k in f ensures k in h && Same(f[k], h[k]) {
        assert k in g.Keys;
        SameTransitive(f[k], g[k], h[k]);
      }
    case _ =>
  }

  // ---------------------------------------------------------------------------
  // The fact map
  // ---------------------------------------------------------------------------

  /** An entry of the list of facts: an object with whatever its key and value fields hold (null if absent), or
      something else. */
  datatype Entry = Fact(key: Json, value: Json) | NotAnObject

  /** A stored snapshot: no object with a list of facts, or one. */
  datatype Snapshot = Unreadable | Facts(entries: seq<Entry>)

  predicate Keyed(e: Entry) {
    e.Fact? && e.key.Text? && e.key.s != ""
  }

  function ValuesFor(entries: seq<Entry>, key: string): seq<Json> {
    if entries == [] then []
    else
      var front := ValuesFor(entries[..|entries| - 1], key);
      var last := entries[|entries| - 1];
      if Keyed(last) && last.key.s == key then front + [last.value] else front
  }

  /** Values are ordered by their canonical text; all that matters of it is that different values have different
      texts. */
  ghost predicate Injective(text: Json -> string) {
    forall a, b :: text(a) == text(b) ==> a == b
  }

  function ByText(text: Json -> string): (Json, Json) -> bool {
    (a, b) => LexLe(text(a), text(b))
  }

  function Collapsed(values: seq<Json>): Json {
    if |values| == 1 then values[0] else List(values)
  }

  function KeysOf(entries: seq<Entry>): set<string> {
    set e | e in entries && Keyed(e) :: e.key.s
  }

  function FactMap(snapshot: Snapshot, text: Json -> string): map<string, Json> {
    match snapshot
    case Unreadable => map[]
    case Facts(entries) => map k | k in KeysOf(entries) :: Collapsed(Sort(ValuesFor(entries, k), ByText(text)))
  }

  method GroupFacts(entries: seq<Entry>) returns (grouped: map<string, seq<Json>>)
    ensures grouped.Keys == KeysOf(entries)
    ensures forall k :: k in grouped ==> grouped[k] == ValuesFor(entries, k)
  {
    grouped := map[];
    for i := 0 to |entries|
      invariant forall k :: k in grouped ==> grouped[k] == ValuesFor(entries[..i], k) && k in KeysOf(entries)
      invariant forall k :: k !in grouped ==> ValuesFor(entries[..i], k) == []
      invariant forall j :: 0 <= j < i && Keyed(entries[j]) ==> entries[j].key.s in grouped
    {
      assert entries[..i + 1][..i] == entries[..i];
      var item := entries[i];
      if !item.Fact? {
        continue;
      }
      if item.key.Text? && item.key.s != "" {
        var key := item.key.s;
        grouped := grouped[key := (if key in grouped then grouped[key] else []) + [item.value]];
      }
    }
    assert entries[..|entries|] == entries;
    forall k | k in KeysOf(entries) ensures k in grouped {
      var e :| e in entries && Keyed(e) && e.key.s == k;
      var j :| 0 <= j < |entries| && entries[j] == e;
      assert entries[j].key.s in grouped;
    }
  }

  method ReadFacts(snapshot: Snapshot, text: Json -> string) returns (facts: map<string, Json>)
    ensures facts == FactMap(snapshot, text)
  {
    if snapshot.Unreadable? {
      return map[];
    }
    var grouped := GroupFacts(snapshot.entries);
    var left := grouped.Keys;
    facts := map[];
    while left != {}
      invariant left <= grouped.Keys && facts.Keys == grouped.Keys - left
      invariant forall k :: k in facts ==> facts[k] == Collapsed(Sort(ValuesFor(snapshot.entries, k), ByText(text)))
      decreases left
    {
      var key :| key in left;
      facts := facts[key := Collapsed(Sort(grouped[key], ByText(text)))];
      left := left - {key};
    }
  }

  lemma {:induction false} ByTextIsTotal(text: Json -> string)
    ensures TotalPreorder(ByText(text))
  {
    forall a, b ensures ByText(text)(a, b) || ByText(text)(b, a) {
      LexTotal(text(a), text(b));
    }
    forall a, b, c | ByText(text)(a, b) && ByText(text)(b, c) ensures ByText(text)(a, c) {
      LexTransitive(text(a), text(b), text(c));
    }
  }

  function FactOf(key: string, value: Json): Entry {
    Fact(Text(key), value)
  }

  lemma {:induction false} ValuesCount(entries: seq<Entry>, key: string, value: Json)
    requires key != ""
    ensures multiset(ValuesFor(entries, key))[value] == multiset(entries)[FactOf(key, value)]
  {
    if entries != [] {
      ValuesCount(entries[..|entries| - 1], key, value);
      assert entries == entries[..|entries| - 1] + [entries[|entries| - 1]];
    }
  }

  /** Permuting the list of facts changes nothing. */
  lemma {:induction false} FactOrderIsIrrelevant(a: seq<Entry>, b: seq<Entry>, text: Json -> string)
    requires Injective(text) && multiset(a) == multiset(b)
    ensures FactMap(Facts(a), text) == FactMap(Facts(b), text)
  {
    forall e ensures e in a <==> e in b {
      assert e in a <==> e in multiset(a);
      assert e in b <==> e in multiset(b);
    }
    assert KeysOf(a) == KeysOf(b);
    forall k | k in KeysOf(a)
      ensures Sort(ValuesFor(a, k), ByText(text)) == Sort(ValuesFor(b, k), ByText(text))
    {
      forall v ensures multiset(ValuesFor(a, k))[v] == multiset(ValuesFor(b, k))[v] {
        ValuesCount(a, k, v);
        ValuesCount(b, k, v);
      }
      assert multiset(ValuesFor(a, k)) == multiset(ValuesFor(b, k));
      ByTextIsTotal(text);
      forall x, y | ByText(text)(x, y) && ByText(text)(y, x) ensures x == y {
        LexTotal(text(x), text(y));
      }
      SortIgnoresOrder(ValuesFor(a, k), ValuesFor(b, k), ByText(text));
    }
  }

  // ---------------------------------------------------------------------------
  // The delta
  // ---------------------------------------------------------------------------

  /** The two sides of a change are kept as two maps over the changed keys. */
  datatype Delta = Delta(added: map<string, Json>, changedBefore: map<string, Json>, changedAfter: map<string, Json>,
      removed: map<string, Json>)

  function ChangedKeys(before: map<string, Json>, after: map<string, Json>): set<string> {
    set k | k in after && k in before && !Same(after[k], before[k])
  }

  function Only(m: map<string, Json>, keys: set<string>): map<string, Json> {
    m - (m.Keys - keys)
  }

  function Diff(before: map<string, Json>, after: map<string, Json>): Delta {
    var changed := ChangedKeys(before, after);
    Delta(after - before.Keys, Only(before, changed), Only(after, changed), before - after.Keys)
  }

  function Reverse(d: Delta): Delta {
    Delta(d.removed, d.changedAfter, d.changedBefore, d.added)
  }

  /** The patch: drop what was removed, replace what changed, insert what was added. */
  function Patched(d: Delta, m: map<string, Json>): map<string, Json> {
    (m - d.removed.Keys) + d.changedAfter + d.added
  }

  predicate IsEmpty(d: Delta) {
    d.added.Keys == {} && d.changedBefore.Keys == {} && d.changedAfter.Keys == {} && d.removed.Keys == {}
  }

  /** Maps with the same keys and values that the runtime calls equal. */
  predicate SameMaps(a: map<string, Json>, b: map<string, Json>) {
    a.Keys == b.Keys && forall k :: k in a ==> k in b && Same(a[k], b[k])
  }

  /** No common key holds two different values that the runtime calls equal. */
  predicate Distinguished(a: map<string, Json>, b: map<string, Json>) {
    forall k :: k in a && k in b && Same(b[k], a[k]) ==> a[k] == b[k]
  }

  /** Patching the old map gives the new one up to the runtime's equality, and the new one itself exactly when no
      change was one that equality cannot see. */
  lemma {:induction false} PatchGivesTarget(a: map<string, Json>, b: map<string, Json>)
    ensures SameMaps(Patched(Diff(a, b), a), b)
    ensures Patched(Diff(a, b), a) == b <==> Distinguished(a, b)
  {
    var p := Patched(Diff(a, b), a);
    assert p.Keys == b.Keys;
    forall k | k in p ensures k in b && Same(p[k], b[k]) {
      SameReflexive(b[k]);
      if k in a && Same(b[k], a[k]) { SameSymmetric(b[k], a[k]); }
    }
    if p == b {
      forall k | k in a && k in b && Same(b[k], a[k]) ensures a[k] == b[k] {
        assert p[k] == a[k];
      }
    }
    if Distinguished(a, b) {
      forall k | k in b ensures p[k] == b[k] {
      }
    }
  }

  /** Swapping the snapshots reverses the delta: added and removed, before and after change places. */
  lemma {:induction false} SwapReverses(a: map<string, Json>, b: map<string, Json>)
    ensures Diff(b, a) == Reverse(Diff(a, b))
  {
    forall k ensures k in ChangedKeys(a, b) <==> k in ChangedKeys(b, a) {
      if k in a && k in b {
        if Same(a[k], b[k]) { SameSymmetric(a[k], b[k]); }
        if Same(b[k], a[k]) { SameSymmetric(b[k], a[k]); }
      }
    }
    assert ChangedKeys(a, b) == ChangedKeys(b, a);
  }

  /** The reverse patch takes the new map back to the old one, under the same condition. */
  lemma {:induction false} ReversePatchGivesSource(a: map<string, Json>, b: map<string, Json>)
    ensures SameMaps(Patched(Reverse(Diff(a, b)), b), a)
    ensures Patched(Reverse(Diff(a, b)), b) == a <==> Distinguished(a, b)
  {
    SwapReverses(a, b);
    PatchGivesTarget(b, a);
    forall k | k in a && k in b ensures Same(a[k], b[k]) <==> Same(b[k], a[k]) {
      if Same(a[k], b[k]) { SameSymmetric(a[k], b[k]); }
      if Same(b[k], a[k]) { SameSymmetric(b[k], a[k]); }
    }
    if Distinguished(b, a) {
      assert Distinguished(a, b);
    }
  }

  lemma {:induction false} SameMapsHaveNoDelta(a: map<string, Json>, b: map<string, Json>)
    ensures IsEmpty(Diff(a, b)) <==> SameMaps(a, b)
  {
    var d := Diff(a, b);
    if SameMaps(a, b) {
      forall k | k in a ensures Same(b[k], a[k]) {
        SameSymmetric(a[k], b[k]);
      }
      assert ChangedKeys(a, b) == {};
    }
    if IsEmpty(d) {
      forall k ensures k in a <==> k in b {
        assert k !in d.added && k !in d.removed;
      }
      forall k | k in a ensures k in b && Same(a[k], b[k]) {
        assert k !in d.changedAfter;
        assert k !in ChangedKeys(a, b);
        SameSymmetric(b[k], a[k]);
      }
    }
  }

  /** The delta is empty exactly when the maps are equal for the runtime, and patching always lands on a map without
      a delta to the target. */
  lemma {:induction false} EmptyIff(a: map<string, Json>, b: map<string, Json>)
    ensures IsEmpty(Diff(a, b)) <==> SameMaps(a, b)
    ensures IsEmpty(Diff(Patched(Diff(a, b), a), b))
  {
    SameMapsHaveNoDelta(a, b);
    PatchGivesTarget(a, b);
    SameMapsHaveNoDelta(Patched(Diff(a, b), a), b);
  }

  /** The condition is needed: a fact that goes from 1 to true leaves an empty delta, and the patch keeps the 1. */
  lemma {:induction false} ChangeWithoutDelta(a: map<string, Json>, key: string)
    requires key in a && a[key] == Int(1)
    ensures var b := a[key := Bool(true)];
            a != b && IsEmpty(Diff(a, b)) && Patched(Diff(a, b), a) != b
  {
    var b := a[key := Bool(true)];
    assert a[key] != b[key];
    forall k | k in a ensures k in b && Same(a[k], b[k]) {
      SameReflexive(a[k]);
    }
    SameMapsHaveNoDelta(a, b);
    assert Same(b[key], a[key]);
    PatchGivesTarget(a, b);
  }

  /** So of two snapshots that list the same facts in any order, neither direction has a delta. */
  lemma {:induction false} PermutedSnapshotsHaveNoDelta(a: seq<Entry>, b: seq<Entry>, text: Json -> string)
    requires Injective(text) && multiset(a) == multiset(b)
    ensures IsEmpty(Diff(FactMap(Facts(a), text), FactMap(Facts(b), text)))
  {
    FactOrderIsIrrelevant(a, b, text);
    var m := FactMap(Facts(a), text);
    forall k | k in m ensures Same(m[k], m[k]) {
      SameReflexive(m[k]);
    }
    SameMapsHaveNoDelta(m, m);
  }

  // ---------------------------------------------------------------------------
  // Loss of the baseline
  // ---------------------------------------------------------------------------

  datatype Drift = ParserVersionChanged | PageIdentityLoss | StableFactDisappearance

  datatype DriftResult = DriftResult(reasons: seq<Drift>, comparable: nat, missing: nat)

  type PageFacts = map<string, set<string>>

  type PageKinds = map<string, string>

  /** What one page contributes: how many facts it had, and how many of them are gone. */
  function HadFacts(facts: PageFacts, page: string): set<string> {
    if page in facts then facts[page] else {}
  }

  datatype Loss = Loss(stable: nat, disappeared: nat, kinds: set<string>)

  function KindOf(kinds: PageKinds, page: string): string {
    if page in kinds then kinds[page] else "other"
  }

  function PageLoss(before: PageFacts, after: PageFacts, kinds: PageKinds, page: string): Loss {
    var had, gone := HadFacts(before, page), HadFacts(before, page) - HadFacts(after, page);
    Loss(|had|, |gone|, if gone == {} then {} else {KindOf(kinds, page)})
  }

  function Plus(a: Loss, b: Loss): Loss {
    Loss(a.stable + b.stable, a.disappeared + b.disappeared, a.kinds + b.kinds)
  }

  /** The loss of every page. */
  function Losses(before: PageFacts, after: PageFacts, kinds: PageKinds): string -> Loss {
    page => PageLoss(before, after, kinds, page)
  }

  ghost function TotalLoss(loss: string -> Loss, pages: set<string>): Loss {
    if pages == {} then Loss(0, 0, {})
    else
      var page :| page in pages;
      Plus(loss(page), TotalLoss(loss, pages - {page}))
  }

  lemma {:induction false} PlusAssociates(a: Loss, b: Loss, c: Loss)
    ensures Plus(a, Plus(b, c)) == Plus(Plus(a, b), c)
    ensures Plus(a, b) == Plus(b, a)
  {
  }

  lemma {:induction false} PlusSwaps(x: Loss, y: Loss, z: Loss)
    ensures Plus(x, Plus(y, z)) == Plus(y, Plus(x, z))
  {
    PlusAssociates(x, y, z);
    PlusAssociates(y, x, z);
  }

  lemma {:induction false} TotalTakesSomePage(loss: string -> Loss, pages: set<string>) returns (page: string)
    requires pages != {}
    ensures page in pages
    ensures TotalLoss(loss, pages) == Plus(loss(page), TotalLoss(loss, pages - {page}))
  {
    page :| page in pages && TotalLoss(loss, pages) == Plus(loss(page), TotalLoss(loss, pages - {page}));
  }

  /** The total does not depend on the order in which the pages are taken. */
  lemma {:induction false} TotalTakesAnyPage(loss: string -> Loss, pages: set<string>, page: string)
    requires page in pages
    ensures TotalLoss(loss, pages) == Plus(loss(page), TotalLoss(loss, pages - {page}))
    decreases pages
  {
    var first := TotalTakesSomePage(loss, pages);
    if first != page {
      TotalTakesAnyPage(loss, pages - {first}, page);
      TotalTakesAnyPage(loss, pages - {page}, first);
      assert pages - {page} - {first} == pages - {first} - {page};
      PlusSwaps(loss(first), loss(page), TotalLoss(loss, pages - {first} - {page}));
    }
  }

  method AddPage(loss: Loss, before: PageFacts, after: PageFacts, kinds: PageKinds, page: string)
    returns (loss': Loss)
    ensures loss' == Plus(loss, PageLoss(before, after, kinds, page))
  {
    var had := HadFacts(before, page);
    var gone := had - HadFacts(after, page);
    loss' := loss;
    if had != {} {
      loss' := Loss(loss.stable + |had|, loss.disappeared + |gone|, loss.kinds);
      if gone != {} {
        loss' := loss'.(kinds := loss.kinds + {KindOf(kinds, page)});
      }
    }
  }

  lemma {:induction false} PlusNothing(loss: Loss)
    ensures Plus(loss, Loss(0, 0, {})) == loss && Plus(Loss(0, 0, {}), loss) == loss
  {
  }

  method MeasureLoss(before: PageFacts, after: PageFacts, kinds: PageKinds, pages: set<string>)
    returns (loss: Loss)
    ensures loss == TotalLoss(Losses(before, after, kinds), pages)
  {
    ghost var losses := Losses(before, after, kinds);
    var left := pages;
    loss := Loss(0, 0, {});
    PlusNothing(TotalLoss(losses, pages));
    while left != {}
      invariant Plus(loss, TotalLoss(losses, left)) == TotalLoss(losses, pages)
      decreases left
    {
      var page :| page in left;
      TotalTakesAnyPage(losses, left, page);
      PlusAssociates(loss, losses(page), TotalLoss(losses, left - {page}));
      loss := AddPage(loss, before, after, kinds, page);
      left := left - {page};
    }
    PlusNothing(loss);
  }

  datatype FactPages = NoFactPages | FactPages(before: PageFacts, after: PageFacts, kinds: PageKinds)

  /** Facts lost on the pages both runs have seen; none if the facts of the pages are not given. */
  ghost function LossOf(previous: set<string>, current: set<string>, facts: FactPages): Loss {
    if facts.NoFactPages? then Loss(0, 0, {})
    else TotalLoss(Losses(facts.before, facts.after, facts.kinds), previous * current)
  }

  predicate Vanished(loss: Loss) {
    loss.stable > 0 && 5 * loss.disappeared >= 3 * loss.stable && |loss.kinds| >= 2
  }

  predicate HalfLost(previous: set<string>, current: set<string>) {
    previous != {} && 2 * |previous - current| >= |previous|
  }

  method StableFactsVanished(previous: set<string>, current: set<string>, facts: FactPages) returns (vanished: bool)
    ensures vanished <==> Vanished(LossOf(previous, current, facts))
  {
    if facts.NoFactPages? {
      return false;
    }
    var loss := MeasureLoss(facts.before, facts.after, facts.kinds, previous * current);
    vanished := loss.stable > 0 && 5 * loss.disappeared >= 3 * loss.stable && |loss.kinds| >= 2;
  }

  function PageSet(pages: seq<string>): set<string> {
    set p | p in pages
  }

  /** At least three pages, and one of: another parser, half of the pages gone, three fifths of the facts of the
      common pages gone on pages of two kinds. */
  method DetectBaselineDrift(parserBefore: string, parserNow: string, previousPages: seq<string>,
      currentPages: seq<string>, facts: FactPages)
    returns (result: DriftResult)
    ensures var previous, current := PageSet(previousPages), PageSet(currentPages);
            && result.comparable == |previous + current| && result.missing == |previous - current|
            && (ParserVersionChanged in result.reasons <==> result.comparable >= 3 && parserBefore != parserNow)
            && (PageIdentityLoss in result.reasons <==> result.comparable >= 3 && HalfLost(previous, current))
            && (StableFactDisappearance in result.reasons <==>
                  result.comparable >= 3 && Vanished(LossOf(previous, current, facts)))
  {
    var previous, current := PageSet(previousPages), PageSet(currentPages);
    var comparable := |previous + current|;
    if comparable < 3 {
      return DriftResult([], comparable, |previous - current|);
    }
    var reasons := [];
    if parserBefore != parserNow {
      reasons := reasons + [ParserVersionChanged];
    }
    var missing := |previous - current|;
    if previous != {} && 2 * missing >= |previous| {
      reasons := reasons + [PageIdentityLoss];
    }
    var vanished := StableFactsVanished(previous, current, facts);
    if vanished {
      reasons := reasons + [StableFactDisappearance];
    }
    result := DriftResult(reasons, comparable, missing);
  }

  lemma {:induction false} SubsetSize(a: set<string>, b: set<string>)
    requires a <= b
    ensures |a| <= |b|
  {
    assert b == a + (b - a);
  }

  lemma {:induction false} PageLossIsBounded(before: PageFacts, after: PageFacts, kinds: PageKinds, page: string)
    ensures var loss := PageLoss(before, after, kinds, page);
            && loss.disappeared <= loss.stable && |loss.kinds| <= 1
            && (loss.disappeared == 0 <==> HadFacts(before, page) <= HadFacts(after, page))
  {
    var had, gone := HadFacts(before, page), HadFacts(before, page) - HadFacts(after, page);
    SubsetSize(gone, had);
    forall x | x in had && gone == {} ensures x in HadFacts(after, page) {
      assert x !in gone;
    }
  }

  lemma {:induction false} UnionSize(a: set<string>, b: set<string>)
    ensures |a + b| <= |a| + |b|
  {
  }

  lemma {:induction false} LossIsBounded(before: PageFacts, after: PageFacts, kinds: PageKinds, pages: set<string>)
    ensures var loss := TotalLoss(Losses(before, after, kinds), pages);
            && loss.disappeared <= loss.stable && |loss.kinds| <= |pages|
            && (loss.disappeared == 0 <==> forall p :: p in pages ==> HadFacts(before, p) <= HadFacts(after, p))
    decreases pages
  {
    if pages != {} {
      var page := TotalTakesSomePage(Losses(before, after, kinds), pages);
      LossIsBounded(before, after, kinds, pages - {page});
      PageLossIsBounded(before, after, kinds, page);
      UnionSize(PageLoss(before, after, kinds, page).kinds,
          TotalLoss(Losses(before, after, kinds), pages - {page}).kinds);
      forall p ensures p in pages <==> p == page || p in pages - {page} {
      }
    }
  }

  predicate LosesFact(facts: FactPages, page: string)
    requires facts.FactPages?
  {
    !(HadFacts(facts.before, page) <= HadFacts(facts.after, page))
  }

  lemma {:induction false} KindsComeFromLosses(before: PageFacts, after: PageFacts,
                                               kinds: PageKinds, pages: set<string>, kind: string)
    requires kind in TotalLoss(Losses(before, after, kinds), pages).kinds
    ensures exists p :: p in pages && KindOf(kinds, p) == kind && !(HadFacts(before, p) <= HadFacts(after, p))
    decreases pages
  {
    var page := TotalTakesSomePage(Losses(before, after, kinds), pages);
    if kind in PageLoss(before, after, kinds, page).kinds {
      assert KindOf(kinds, page) == kind && HadFacts(before, page) - HadFacts(after, page) != {};
    } else {
      KindsComeFromLosses(before, after, kinds, pages - {page}, kind);
    }
  }

  lemma {:induction false} TwoMembers(s: set<string>) returns (a: string, b: string)
    requires |s| >= 2
    ensures a in s && b in s && a != b
  {
    a :| a in s;
    assert |s - {a}| >= 1;
    b :| b in s - {a};
  }

  /** Facts count as vanished only if two pages of different kinds, which both runs have seen, each lost one. */
  lemma {:induction false} VanishedNeedsLosses(previous: set<string>, current: set<string>, facts: FactPages)
    requires Vanished(LossOf(previous, current, facts))
    ensures facts.FactPages?
    ensures exists p, q ::
        p in previous * current && q in previous * current && LosesFact(facts, p) && LosesFact(facts, q)
        && KindOf(facts.kinds, p) != KindOf(facts.kinds, q)
  {
    var pages := previous * current;
    var a, b := TwoMembers(LossOf(previous, current, facts).kinds);
    KindsComeFromLosses(facts.before, facts.after, facts.kinds, pages, a);
    KindsComeFromLosses(facts.before, facts.after, facts.kinds, pages, b);
    var p :| p in pages && KindOf(facts.kinds, p) == a && !(HadFacts(facts.before, p) <= HadFacts(facts.after, p));
    var q :| q in pages && KindOf(facts.kinds, q) == b && !(HadFacts(facts.before, q) <= HadFacts(facts.after, q));
    assert LosesFact(facts, p) && LosesFact(facts, q);
  }
}
