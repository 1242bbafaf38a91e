/** What the source takes for blank, for a country code and for the name of a secret, in terms of characters. */
module TextMeaning {
  import opened Common
  import opened AcquisitionRows
  import opened TextForms
  import opened MissionResults
  import opened JobPayload

  // ---------------------------------------------------------------------------
  // Stripping
  // ---------------------------------------------------------------------------

  /** Tabulator to carriage return, the separators, the space, next line, and the wide spaces of Unicode. */
  predicate White(c: char) {
    var n := c as int;
    || n in {9, 10, 11, 12, 13, 28, 29, 30, 31, 32, 133, 160, 5760}
    || n in {8192, 8193, 8194, 8195, 8196, 8197, 8198, 8199, 8200, 8201, 8202, 8232, 8233, 8239, 8287, 12288}
  }

  predicate AllWhite(s: string) {
    forall i :: 0 <= i < |s| ==> White(s[i])
  }

  /** The text is the core between white space, and the core has none at its ends. */
  ghost predicate Stripped(s: string, core: string) {
    exists before, after ::
      && s == before + core + after && AllWhite(before) && AllWhite(after)
      && (core != [] ==> !White(core[0]) && !White(core[|core| - 1]))
  }

  lemma {:induction false} BlankIff(c: char)
    ensures Blank(c) <==> White(c)
  {
  }

  predicate AllBlank(s: string) {
    forall i :: 0 <= i < |s| ==> Blank(s[i])
  }

  predicate BareEnds(core: string) {
    core != [] ==> !Blank(core[0]) && !Blank(core[|core| - 1])
  }

  lemma {:induction false} TrimLeftMeans(s: string) returns (before: string)
    ensures s == before + TrimLeft(s) && AllBlank(before)
    ensures TrimLeft(s) != [] ==> !Blank(TrimLeft(s)[0])
  {
    before := [];
    if s != [] && Blank(s[0]) {
      var rest := TrimLeftMeans(s[1..]);
      before := [s[0]] + rest;
      assert s == [s[0]] + s[1..];
    }
  }

  lemma {:induction false} TrimRightMeans(s: string) returns (after: string)
    ensures s == TrimRight(s) + after && AllBlank(after)
    ensures TrimRight(s) != [] ==> !Blank(TrimRight(s)[|TrimRight(s)| - 1])
  {
    after := [];
    if s != [] && Blank(s[|s| - 1]) {
      var rest := TrimRightMeans(s[..|s| - 1]);
      after := rest + [s[|s| - 1]];
      assert s == s[..|s| - 1] + [s[|s| - 1]];
    }
  }

  lemma {:induction false} TrimLeftBlank(before: string, rest: string)
    requires AllBlank(before) && (rest != [] ==> !Blank(rest[0]))
    ensures TrimLeft(before + rest) == rest
  {
    if before == [] {
      assert before + rest == rest;
    } else {
      assert (before + rest)[1..] == before[1..] + rest;
      TrimLeftBlank(before[1..], rest);
    }
  }

  lemma {:induction false} TrimRightBlank(front: string, after: string)
    requires AllBlank(after) && (front != [] ==> !Blank(front[|front| - 1]))
    ensures TrimRight(front + after) == front
  {
    if after == [] {
      assert front + after == front;
    } else {
      var s := front + after;
      assert s[..|s| - 1] == front + after[..|after| - 1];
      TrimRightBlank(front, after[..|after| - 1]);
    }
  }

  lemma {:induction false} Regroup(a: string, b: string, c: string)
    ensures a + (b + c) == a + b + c
  {
  }

  lemma {:induction false} TrimSplits(s: string) returns (before: string, after: string)
    ensures s == before + Trim(s) + after && AllBlank(before) && AllBlank(after) && BareEnds(Trim(s))
  {
    var left, core := TrimLeft(s), Trim(s);
    before := TrimLeftMeans(s);
    after := TrimRightMeans(left);
    Regroup(before, core, after);
    if core != [] { assert left[0] == core[0]; }
  }

  lemma {:induction false} TrimOfSplit(before: string, core: string, after: string)
    requires AllBlank(before) && AllBlank(after) && BareEnds(core)
    ensures Trim(before + core + after) == core
  {
    if core == [] {
      assert before + core + after == before + after + [];
      TrimLeftBlank(before + after, []);
    } else {
      Regroup(before, core, after);
      assert (core + after)[0] == core[0];
      TrimLeftBlank(before, core + after);
      TrimRightBlank(core, after);
    }
  }

  lemma {:induction false} AllBlankIff(s: string)
    ensures AllBlank(s) <==> AllWhite(s)
  {
    if s != [] {
      assert s == [s[0]] + s[1..];
      AllBlankIff(s[1..]);
      BlankIff(s[0]);
    }
  }

  lemma {:induction false} BareEndsIff(core: string)
    ensures BareEnds(core) <==> (core != [] ==> !White(core[0]) && !White(core[|core| - 1]))
  {
    if core != [] {
      BlankIff(core[0]);
      BlankIff(core[|core| - 1]);
    }
  }

  lemma {:induction false} TrimIff(s: string, core: string)
    ensures Trim(s) == core <==> Stripped(s, core)
  {
    BareEndsIff(core);
    if Trim(s) == core {
      var before, after := TrimSplits(s);
      AllBlankIff(before);
      AllBlankIff(after);
      assert s == before + core + after;
    }
    if Stripped(s, core) {
      var before, after :| s == before + core + after && AllWhite(before) && AllWhite(after);
      AllBlankIff(before);
      AllBlankIff(after);
      TrimOfSplit(before, core, after);
    }
  }

  // ---------------------------------------------------------------------------
  // Country codes
  // ---------------------------------------------------------------------------

  /** The character is that capital letter, its small letter, or one of the two others that become it. */
  predicate Spells(c: char, letter: char)
    requires 'A' <= letter <= 'Z'
  {
    || c == letter || c == letter - 'A' + 'a'
    || (letter == 'I' && c == '\U{131}') || (letter == 'S' && c == '\U{17F}')
  }

  /** Two letters in one character. */
  predicate Ligature(c: char, code: string) {
    match code
    case "SS" => c == '\U{DF}'
    case "FF" => c == '\U{FB00}'
    case "FI" => c == '\U{FB01}'
    case "FL" => c == '\U{FB02}'
    case "ST" => c == '\U{FB05}' || c == '\U{FB06}'
    case _ => false
  }

  predicate TwoLetters(code: string) {
    |code| == 2 && 'A' <= code[0] <= 'Z' && 'A' <= code[1] <= 'Z'
  }

  predicate SpellsCountry(core: string, code: string)
    requires TwoLetters(code)
  {
    || (|core| == 2 && Spells(core[0], code[0]) && Spells(core[1], code[1]))
    || (|core| == 1 && Ligature(core[0], code))
  }

  lemma {:induction false} UpperLength(s: string)
    ensures |Upper(s)| >= |s|
  {
    if s != [] { UpperLength(s[1..]); }
  }

  lemma {:induction false} LetterIff(c: char, letter: char)
    requires 'A' <= letter <= 'Z'
    ensures UpperChar(c) == [letter] <==> Spells(c, letter)
  {
  }

  lemma {:induction false} LigatureIff(c: char, code: string)
    requires TwoLetters(code)
    ensures UpperChar(c) == code <==> Ligature(c, code)
  {
  }

  lemma {:induction false} UpperIff(core: string, code: string)
    requires TwoLetters(code)
    ensures Upper(core) == code <==> SpellsCountry(core, code)
  {
    UpperLength(core);
    if |core| == 1 {
      assert Upper(core) == UpperChar(core[0]) + Upper([]);
      LigatureIff(core[0], code);
    } else if |core| == 2 {
      assert core[1..] == [core[1]] && core[1..][1..] == [];
      assert Upper(core[1..]) == UpperChar(core[1]);
      assert Upper(core) == UpperChar(core[0]) + UpperChar(core[1]);
      LetterIff(core[0], code[0]);
      LetterIff(core[1], code[1]);
      if Upper(core) == code {
        assert |UpperChar(core[0])| == 1 && |UpperChar(core[1])| == 1;
        assert UpperChar(core[0])[0] == code[0] && UpperChar(core[1])[0] == code[1];
      }
    }
  }

  /** The text gives a country code exactly if its stripped form spells it. */
  lemma {:induction false} CountryCodeIff(text: string, code: string)
    ensures CountryCode(JsonText(text)) == Some(code) <==>
            TwoLetters(code) && exists core :: Stripped(text, core) && SpellsCountry(core, code)
  {
    TrimIff(text, Trim(text));
    if TwoLetters(code) {
      UpperIff(Trim(text), code);
      if core :| Stripped(text, core) && SpellsCountry(core, code) { TrimIff(text, core); }
    }
  }

  // ---------------------------------------------------------------------------
  // Identifiers
  // ---------------------------------------------------------------------------

  /** A letter, a digit, an underscore or a dash. */
  predicate IdChar(c: char) {
    var n := c as int;
    65 <= n < 91 || 97 <= n < 123 || 48 <= n < 58 || n == 95 || n == 45
  }

  predicate IsId(s: string) {
    s != [] && |s| <= 64 && forall c :: c in s ==> IdChar(c)
  }

  lemma {:induction false} SafeCharIff(c: char)
    ensures SafeChar(c) <==> IdChar(c)
  {
  }

  lemma {:induction false} SafeIdIff(s: string)
    ensures SafeId(s) <==> IsId(s)
  {
    forall c ensures SafeChar(c) <==> IdChar(c) {
      SafeCharIff(c);
    }
    if c :| c in s && !IdChar(c) {
      var i :| 0 <= i < |s| && s[i] == c;
    }
  }

  // ---------------------------------------------------------------------------
  // Names of secrets
  // ---------------------------------------------------------------------------

  predicate PlainChar(c: char) {
    'a' <= c <= 'z' || c == '_'
  }

  predicate Plain(s: string) {
    forall c :: c in s ==> PlainChar(c)
  }

  /** The character stands for that one of a plain name: in either case, with a dash for an underscore, or the sign of
      the kelvin for a k. */
  predicate StandsAs(c: char, plain: char) {
    || c == plain || ('a' <= plain <= 'z' && c == plain - 'a' + 'A')
    || (plain == '_' && c == '-') || (plain == 'k' && c == '\U{212A}')
  }

  predicate WrittenAs(s: string, plain: string) {
    |s| == |plain| && forall i :: 0 <= i < |s| ==> StandsAs(s[i], plain[i])
  }

  predicate Secret(name: string) {
    name == "api_key" || name == "password" || name == "secret" || name == "authorization" || name == "cookie"
  }

  /** The text is the plain name, or ends in it after a dash or an underscore. */
  ghost predicate EndsAs(core: string, name: string) {
    exists front, tail ::
      && core == front + tail && WrittenAs(tail, name)
      && (front == [] || front[|front| - 1] == '_' || front[|front| - 1] == '-')
  }

  ghost predicate NamesSecret(key: string) {
    exists core, name :: Stripped(key, core) && Secret(name) && EndsAs(core, name)
  }

  lemma {:induction false} NormalIff(c: char, plain: char)
    requires PlainChar(plain)
    ensures Normal(c) == plain <==> StandsAs(c, plain)
  {
  }

  lemma {:induction false} NormalizedAt(s: string)
    ensures |Normalized(s)| == |s|
    ensures forall i :: 0 <= i < |s| ==> Normalized(s)[i] == Normal(s[i])
  {
    if s != [] {
      NormalizedAt(s[1..]);
      assert s == [s[0]] + s[1..];
    }
  }

  lemma {:induction false} NormalizedIff(s: string, plain: string)
    requires Plain(plain)
    ensures Normalized(s) == plain <==> WrittenAs(s, plain)
  {
    NormalizedAt(s);
    forall i | 0 <= i < |s| && i < |plain| ensures Normal(s[i]) == plain[i] <==> StandsAs(s[i], plain[i]) {
      assert plain[i] in plain;
      NormalIff(s[i], plain[i]);
    }
  }

  lemma {:induction false} NormalizedTail(front: string, tail: string)
    ensures Normalized(front + tail) == Normalized(front) + Normalized(tail)
  {
    NormalizedAt(front);
    NormalizedAt(tail);
    NormalizedAt(front + tail);
  }

  lemma {:induction false} SecretIff(name: string)
    ensures name in FORBIDDEN <==> Secret(name)
    ensures Secret(name) ==> Plain(name)
  {
  }

  lemma {:induction false} EndsAsMeans(core: string, name: string)
    requires Plain(name) && (Normalized(core) == name || EndsWith(Normalized(core), "_" + name))
    ensures EndsAs(core, name)
  {
    var k := |Normalized(core)| - |name|;
    NormalizedAt(core);
    var front, tail := core[..k], core[k..];
    assert core == front + tail;
    NormalizedTail(front, tail);
    NormalizedAt(front);
    NormalizedAt(tail);
    NormalizedIff(tail, name);
    if Normalized(core) == name {
      assert front == [] && tail == core;
    } else {
      var all := Normalized(core);
      assert all[k - 1..] == "_" + name;
      assert all[k - 1] == '_' && Normalized(tail) == all[k..] == all[k - 1..][1..] == name;
      NormalIff(front[k - 1], '_');
    }
  }

  lemma {:induction false} TailIsEnd(front: string, tail: string, name: string)
    requires Plain(name) && WrittenAs(tail, name)
    requires front == [] || front[|front| - 1] == '_' || front[|front| - 1] == '-'
    ensures Normalized(front + tail) == name || EndsWith(Normalized(front + tail), "_" + name)
  {
    NormalizedIff(tail, name);
    NormalizedTail(front, tail);
    NormalizedAt(front);
    if front != [] {
      var k := |front|;
      NormalIff(front[k - 1], '_');
      var all := Normalized(front + tail);
      assert Normalized(front) == Normalized(front)[..k - 1] + ['_'];
      assert all == Normalized(front)[..k - 1] + ("_" + name);
      assert all[k - 1..] == "_" + name;
    }
  }

  lemma {:induction false} EndsAsIff(core: string, name: string)
    requires Plain(name)
    ensures Normalized(core) == name || EndsWith(Normalized(core), "_" + name) <==> EndsAs(core, name)
  {
    if Normalized(core) == name || EndsWith(Normalized(core), "_" + name) { EndsAsMeans(core, name); }
    if EndsAs(core, name) {
      var front, tail :| core == front + tail && WrittenAs(tail, name)
        && (front == [] || front[|front| - 1] == '_' || front[|front| - 1] == '-');
      TailIsEnd(front, tail, name);
    }
  }

  lemma {:induction false} SecretRefused(key: string, core: string, name: string)
    requires Stripped(key, core) && Secret(name) && EndsAs(core, name)
    ensures ForbiddenKey(key)
  {
    TrimIff(key, core);
    SecretIff(name);
    EndsAsIff(core, name);
  }

  lemma {:induction false} RefusedIsSecret(key: string) returns (name: string)
    requires ForbiddenKey(key)
    ensures Secret(name) && EndsAs(Trim(key), name)
  {
    var k := Normalized(Trim(key));
    name := k;
    if k !in FORBIDDEN { name :| name in FORBIDDEN && EndsWith(k, "_" + name); }
    SecretIff(name);
    EndsAsIff(Trim(key), name);
  }

  /** A key is refused exactly if its stripped form is the name of a secret, or ends in one after a dash or an
      underscore. */
  lemma {:induction false} ForbiddenKeyIff(key: string)
    ensures ForbiddenKey(key) <==> NamesSecret(key)
  {
    if ForbiddenKey(key) {
      var name := RefusedIsSecret(key);
      TrimIff(key, Trim(key));
    }
    if core, name :| Stripped(key, core) && Secret(name) && EndsAs(core, name) { SecretRefused(key, core, name); }
  }

  /** A payload is refused exactly if some key at some depth names a secret. */
  lemma {:induction false} PayloadRefusedIff(p: Payload)
    ensures ContainsForbiddenKey(p) <==> exists k :: k in Keys(p) && NamesSecret(k)
  {
    ForbiddenAtAnyDepth(p);
    if k :| k in Keys(p) && ForbiddenKey(k) { ForbiddenKeyIff(k); }
    if k :| k in Keys(p) && NamesSecret(k) { ForbiddenKeyIff(k); }
  }
}
