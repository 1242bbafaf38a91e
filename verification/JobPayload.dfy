/** The check that refuses a job payload which names a secret anywhere inside. */
module JobPayload {
  import opened TextForms

  datatype Payload =
    | Scalar
    | Sequence(items: seq<Payload>)
    | Mapping(entries: seq<Entry>)

  datatype Entry = Entry(key: string, value: Payload)

  const FORBIDDEN := {"api_key", "password", "secret", "authorization", "cookie"}

  /** Lower case as far as it gives the letters a to z (besides A to Z, the Kelvin sign does), and underscores for
      dashes. */
  function Normal(c: char): char {
    if 'A' <= c <= 'Z' then c - 'A' + 'a' else if c == '\U{212A}' then 'k' else if c == '-' then '_' else c
  }

  function Normalized(s: string): string {
    if s == [] then [] else [Normal(s[0])] + Normalized(s[1..])
  }

  predicate EndsWith(s: string, suffix: string) {
    |suffix| <= |s| && s[|s| - |suffix|..] == suffix
  }

  predicate ForbiddenKey(key: string) {
    var k := Normalized(Trim(key));
    k in FORBIDDEN || exists f :: f in FORBIDDEN && EndsWith(k, "_" + f)
  }

  function EntryKeys(entries: seq<Entry>): set<string>
    decreases entries
  {
    if entries == [] then {} else {entries[0].key} + Keys(entries[0].value) + EntryKeys(entries[1..])
  }

  function ItemKeys(items: seq<Payload>): set<string>
    decreases items
  {
    if items == [] then {} else Keys(items[0]) + ItemKeys(items[1..])
  }

  /** Every key at any depth. */
  function Keys(p: Payload): set<string>
    decreases p
  {
    match p
    case Scalar => {}
    case Sequence(items) => ItemKeys(items)
    case Mapping(entries) => EntryKeys(entries)
  }

  /** The recursive search. */
  predicate ContainsForbiddenKey(p: Payload)
    decreases p
  {
    match p
    case Scalar => false
    case Sequence(items) => exists i :: 0 <= i < |items| && ContainsForbiddenKey(items[i])
    case Mapping(entries) =>
      exists i :: 0 <= i < |entries| && (ForbiddenKey(entries[i].key) || ContainsForbiddenKey(entries[i].value))
  }

  predicate Names(keys: set<string>) {
    exists k :: k in keys && ForbiddenKey(k)
  }

  lemma {:induction false} NamesUnion(a: set<string>, b: set<string>)
    ensures Names(a + b) <==> Names(a) || Names(b)
  {
  }

  lemma {:induction false} ItemKeysName(items: seq<Payload>)
    ensures Names(ItemKeys(items)) <==> exists i :: 0 <= i < |items| && Names(Keys(items[i]))
  {
    if items != [] {
      var rest := items[1..];
      ItemKeysName(rest);
      NamesUnion(Keys(items[0]), ItemKeys(rest));
      if i :| 0 <= i < |rest| && Names(Keys(rest[i])) {
        var k := i + 1;
        assert Names(Keys(items[k]));
      }
      if i :| 0 < i < |items| && Names(Keys(items[i])) {
        var k := i - 1;
        assert Names(Keys(rest[k]));
      }
    }
  }

  predicate Offends(e: Entry) {
    ForbiddenKey(e.key) || Names(Keys(e.value))
  }

  lemma {:induction false} EntryKeysName(entries: seq<Entry>)
    ensures Names(EntryKeys(entries)) <==> exists i :: 0 <= i < |entries| && Offends(entries[i])
  {
    if entries != [] {
      var head, rest := entries[0], entries[1..];
      EntryKeysName(rest);
      NamesUnion({head.key}, Keys(head.value));
      NamesUnion({head.key} + Keys(head.value), EntryKeys(rest));
      assert Names({head.key}) <==> ForbiddenKey(head.key);
      if i :| 0 <= i < |rest| && Offends(rest[i]) {
        var k := i + 1;
        assert Offends(entries[k]);
      }
      if i :| 0 < i < |entries| && Offends(entries[i]) {
        var k := i - 1;
        assert Offends(rest[k]);
      }
    }
  }

  /** The search finds exactly the payloads with a forbidden key at some depth. */
  lemma {:induction false} ForbiddenAtAnyDepth(p: Payload)
    ensures ContainsForbiddenKey(p) <==> exists k :: k in Keys(p) && ForbiddenKey(k)
    decreases p
  {
    match p
    case Scalar =>
    case Sequence(items) =>
      forall i | 0 <= i < |items| ensures ContainsForbiddenKey(items[i]) <==> Names(Keys(items[i])) {
        ForbiddenAtAnyDepth(items[i]);
      }
      ItemKeysName(items);
      assert Names(Keys(p)) <==> exists k :: k in Keys(p) && ForbiddenKey(k);
    case Mapping(entries) =>
      forall i | 0 <= i < |entries| ensures ContainsForbiddenKey(entries[i].value) <==> Names(Keys(entries[i].value)) {
        ForbiddenAtAnyDepth(entries[i].value);
      }
      EntryKeysName(entries);
      assert Names(Keys(p)) <==> exists k :: k in Keys(p) && ForbiddenKey(k);
  }
}
