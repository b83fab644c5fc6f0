/**
 Country normalisation: trim white space, then lower the case. White space is all of Unicode's;
 letters have case in ASCII, Latin-1, Greek and Cyrillic.
 */
module Country {
  /** Unicode's White_Space. */
  predicate IsSpace(c: char) {
    || c == ' ' || '\t' <= c <= '\r'
    || c == '\U{85}' || c == '\U{A0}' || c == '\U{1680}' || '\U{2000}' <= c <= '\U{200A}'
    || c == '\U{2028}' || c == '\U{2029}' || c == '\U{202F}' || c == '\U{205F}' || c == '\U{3000}'
  }

  /** The same characters, one by one. */
  const WHITE_SPACE := {
    '\t', '\n', '\U{B}', '\U{C}', '\r', ' ', '\U{85}', '\U{A0}', '\U{1680}',
    '\U{2000}', '\U{2001}', '\U{2002}', '\U{2003}', '\U{2004}', '\U{2005}', '\U{2006}',
    '\U{2007}', '\U{2008}', '\U{2009}', '\U{200A}',
    '\U{2028}', '\U{2029}', '\U{202F}', '\U{205F}', '\U{3000}' }

  lemma SpacesExactly(c: char)
    ensures IsSpace(c) <==> c in WHITE_SPACE
  {
  }

  /** How far the lower-case letter is from an upper-case one; other characters are their own. */
  function ToLowerBy(c: char): int {
    if 'A' <= c <= 'Z' then 32
    else if '\U{C0}' <= c <= '\U{DE}' && c != '\U{D7}' then 32
    else if '\U{391}' <= c <= '\U{3A9}' && c != '\U{3A2}' then 32
    else if '\U{400}' <= c <= '\U{40F}' then 80
    else if '\U{410}' <= c <= '\U{42F}' then 32
    else 0
  }

  function LowerChar(c: char): (l: char)
    ensures IsSpace(l) <==> IsSpace(c)
  {
    (c as int + ToLowerBy(c)) as char
  }

  function ToLower(s: string): (l: string)
    ensures |l| == |s|
    ensures forall i :: 0 <= i < |s| ==> l[i] == LowerChar(s[i])
  {
    seq(|s|, i requires 0 <= i < |s| => LowerChar(s[i]))
  }

  function TrimLeft(s: string): string {
    if s != "" && IsSpace(s[0]) then TrimLeft(s[1..]) else s
  }

  function TrimRight(s: string): string {
    if s != "" && IsSpace(s[|s| - 1]) then TrimRight(s[..|s| - 1]) else s
  }

  function TrimSpace(s: string): string {
    TrimRight(TrimLeft(s))
  }

  function NormalizeCountry(s: string): string {
    ToLower(TrimSpace(s))
  }

  // ----- What trimming and case mean, without the algorithm -----

  predicate Blank(s: string) {
    forall c :: c in s ==> IsSpace(c)
  }

  /** No white space at either end. */
  predicate Solid(s: string) {
    s != "" ==> !IsSpace(s[0]) && !IsSpace(s[|s| - 1])
  }

  /** The text is the core with white space around it. */
  ghost predicate HasCore(s: string, core: string) {
    Solid(core) && exists l, r :: s == l + core + r && Blank(l) && Blank(r)
  }

  // The letters that have case, capital above small.
  const LATIN := "ABCDEFGHIJKLMNOPQRSTUVWXYZ"
  const SMALL_LATIN := "abcdefghijklmnopqrstuvwxyz"
  const LATIN_1 := "ÀÁÂÃÄÅÆÇÈÉÊËÌÍÎÏÐÑÒÓÔÕÖØÙÚÛÜÝÞ"
  const SMALL_LATIN_1 := "àáâãäåæçèéêëìíîïðñòóôõöøùúûüýþ"
  const GREEK := "ΑΒΓΔΕΖΗΘΙΚΛΜΝΞΟΠΡΣΤΥΦΧΨΩ"
  const SMALL_GREEK := "αβγδεζηθικλμνξοπρστυφχψω"
  const CYRILLIC := "АБВГДЕЖЗИЙКЛМНОПРСТУФХЦЧШЩЪЫЬЭЮЯ"
  const SMALL_CYRILLIC := "абвгдежзийклмнопрстуфхцчшщъыьэюя"
  const CYRILLIC_EXTENSIONS := "ЀЁЂЃЄЅІЇЈЉЊЋЌЍЎЏ"
  const SMALL_CYRILLIC_EXTENSIONS := "ѐёђѓєѕіїјљњћќѝўџ"

  predicate PairIn(capitals: string, smalls: string, a: char, b: char)
    requires |capitals| == |smalls|
  {
    exists i :: 0 <= i < |capitals| && a == capitals[i] && b == smalls[i]
  }

  /** The first is a capital letter and the second the same letter in lower case. */
  predicate CapitalOf(a: char, b: char) {
    || PairIn(LATIN, SMALL_LATIN, a, b)
    || PairIn(LATIN_1, SMALL_LATIN_1, a, b)
    || PairIn(GREEK, SMALL_GREEK, a, b)
    || PairIn(CYRILLIC, SMALL_CYRILLIC, a, b)
    || PairIn(CYRILLIC_EXTENSIONS, SMALL_CYRILLIC_EXTENSIONS, a, b)
  }

  /** The same letter, up to its case. */
  predicate CaseVariants(a: char, b: char) {
    a == b || CapitalOf(a, b) || CapitalOf(b, a)
  }

  predicate EqualFold(a: string, b: string) {
    |a| == |b| && forall i :: 0 <= i < |a| ==> CaseVariants(a[i], b[i])
  }

  /** Two country names are the same up to surrounding white space and letter case. */
  ghost predicate SameCountry(a: string, b: string) {
    exists x, y :: HasCore(a, x) && HasCore(b, y) && EqualFold(x, y)
  }

  // ----- The algorithm finds the core -----

  lemma {:induction false} TrimLeftStrips(s: string) returns (l: string)
    ensures s == l + TrimLeft(s) && Blank(l)
    ensures TrimLeft(s) != "" ==> !IsSpace(TrimLeft(s)[0])
  {
    if s != "" && IsSpace(s[0]) {
      var l' := TrimLeftStrips(s[1..]);
      l := [s[0]] + l';
      assert s == [s[0]] + s[1..];
    } else {
      l := "";
    }
  }

  lemma {:induction false} TrimRightStrips(s: string) returns (r: string)
    ensures s == TrimRight(s) + r && Blank(r)
    ensures TrimRight(s) != "" ==> !IsSpace(TrimRight(s)[|TrimRight(s)| - 1])
  {
    if s != "" && IsSpace(s[|s| - 1]) {
      var r' := TrimRightStrips(s[..|s| - 1]);
      r := r' + [s[|s| - 1]];
      assert s == s[..|s| - 1] + [s[|s| - 1]];
    } else {
      r := "";
    }
  }

  lemma TrimFindsCore(s: string)
    ensures HasCore(s, TrimSpace(s))
  {
    var l := TrimLeftStrips(s);
    var m := TrimLeft(s);
    var r := TrimRightStrips(m);
    var core := TrimSpace(s);
    if core != "" {
      assert core[0] == m[0];
    }
    assert s == l + core + r;
  }

  lemma {:induction false} TrimLeftDropsBlank(l: string, s: string)
    requires Blank(l) && (s != "" ==> !IsSpace(s[0]))
    ensures TrimLeft(l + s) == s
  {
    if l == "" {
      assert l + s == s;
    } else {
      assert (l + s)[0] == l[0] && (l + s)[1..] == l[1..] + s;
      assert l[0] in l;
      assert forall c :: c in l[1..] ==> c in l;
      TrimLeftDropsBlank(l[1..], s);
    }
  }

  lemma {:induction false} TrimRightDropsBlank(s: string, r: string)
    requires Blank(r) && Solid(s)
    ensures TrimRight(s + r) == s
  {
    var n := |r| - 1;
    if r == "" {
      assert s + r == s;
    } else {
      assert (s + r)[|s + r| - 1] == r[n] && (s + r)[..|s + r| - 1] == s + r[..n];
      assert r[n] in r;
      assert forall c :: c in r[..n] ==> c in r;
      TrimRightDropsBlank(s, r[..n]);
    }
  }

  lemma {:induction false} TrimLeftOfBlank(s: string)
    requires Blank(s)
    ensures TrimLeft(s) == ""
  {
    assert s + "" == s;
    TrimLeftDropsBlank(s, "");
  }

  /** A text has exactly one core. */
  lemma CoreIsTrimmed(s: string, core: string)
    requires HasCore(s, core)
    ensures core == TrimSpace(s)
  {
    var l, r :| s == l + core + r && Blank(l) && Blank(r);
    if core == "" {
      assert forall c :: c in s ==> c in l || c in r;
      TrimLeftOfBlank(s);
    } else {
      assert s == l + (core + r);
      assert (core + r)[0] == core[0];
      TrimLeftDropsBlank(l, core + r);
      TrimRightDropsBlank(core, r);
    }
  }

  // ----- The table of differences is the list of letters -----

  /** The letters follow one another in the character set, but for one gap. */
  predicate Follows(letters: string, first: nat, gap: nat) {
    forall i :: 0 <= i < |letters| ==> letters[i] as int == if i < gap then first + i else first + i + 1
  }

  lemma RunPairs(capitals: string, smalls: string, first: nat, gap: nat, d: nat, a: char, b: char)
    requires |capitals| == |smalls| && gap <= |capitals|
    requires Follows(capitals, first, gap) && Follows(smalls, first + d, gap)
    ensures PairIn(capitals, smalls, a, b) <==>
              && (first <= a as int < first + gap || first + gap < a as int <= first + |capitals|)
              && b as int == a as int + d
  {
    var i := if a as int < first + gap then a as int - first else a as int - first - 1;
    if 0 <= i < |capitals| {
      assert PairIn(capitals, smalls, a, b) <== a == capitals[i] && b == smalls[i];
    }
  }

  lemma LatinPairs(a: char, b: char)
    ensures PairIn(LATIN, SMALL_LATIN, a, b)
       <==> 'A' <= a <= 'Z' && b as int == a as int + 32
  {
    RunPairs(LATIN, SMALL_LATIN, 0x41, |LATIN|, 32, a, b);
  }

  lemma Latin1Pairs(a: char, b: char)
    ensures PairIn(LATIN_1, SMALL_LATIN_1, a, b)
       <==> '\U{C0}' <= a <= '\U{DE}' && a != '\U{D7}' && b as int == a as int + 32
  {
    RunPairs(LATIN_1, SMALL_LATIN_1, 0xc0, 23, 32, a, b);
  }

  lemma GreekPairs(a: char, b: char)
    ensures PairIn(GREEK, SMALL_GREEK, a, b)
       <==> '\U{391}' <= a <= '\U{3A9}' && a != '\U{3A2}' && b as int == a as int + 32
  {
    RunPairs(GREEK, SMALL_GREEK, 0x391, 17, 32, a, b);
  }

  lemma CyrillicPairs(a: char, b: char)
    ensures PairIn(CYRILLIC, SMALL_CYRILLIC, a, b)
       <==> '\U{410}' <= a <= '\U{42F}' && b as int == a as int + 32
  {
    RunPairs(CYRILLIC, SMALL_CYRILLIC, 0x410, |CYRILLIC|, 32, a, b);
  }

  lemma CyrillicExtensionPairs(a: char, b: char)
    ensures PairIn(CYRILLIC_EXTENSIONS, SMALL_CYRILLIC_EXTENSIONS, a, b)
       <==> '\U{400}' <= a <= '\U{40F}' && b as int == a as int + 80
  {
    RunPairs(CYRILLIC_EXTENSIONS, SMALL_CYRILLIC_EXTENSIONS, 0x400, |CYRILLIC_EXTENSIONS|, 80, a, b);
  }

  lemma CapitalsAreLowered(a: char, b: char)
    ensures CapitalOf(a, b) <==> b != a && b == LowerChar(a)
  {
    LatinPairs(a, b);
    Latin1Pairs(a, b);
    GreekPairs(a, b);
    CyrillicPairs(a, b);
    CyrillicExtensionPairs(a, b);
  }

  /** Each listed capital becomes its own small letter, and every other character stays as it is. */
  lemma LowerCharExactly(c: char)
    ensures forall l :: CapitalOf(c, l) ==> LowerChar(c) == l
    ensures (forall l :: !CapitalOf(c, l)) ==> LowerChar(c) == c
  {
    forall l ensures CapitalOf(c, l) <==> l != c && l == LowerChar(c) {
      CapitalsAreLowered(c, l);
    }
    assert LowerChar(c) == c || CapitalOf(c, LowerChar(c));
  }

  lemma VariantsLowerAlike(a: char, b: char)
    ensures CaseVariants(a, b) <==> LowerChar(a) == LowerChar(b)
  {
    CapitalsAreLowered(a, b);
    CapitalsAreLowered(b, a);
    LowerAlike(a, b, CapitalOf(a, b), CapitalOf(b, a));
  }

  lemma LowerAlike(a: char, b: char, below: bool, above: bool)
    requires below <==> b != a && b == LowerChar(a)
    requires above <==> a != b && a == LowerChar(b)
    ensures a == b || below || above <==> LowerChar(a) == LowerChar(b)
  {
  }

  lemma FoldIsLower(a: string, b: string)
    ensures EqualFold(a, b) <==> ToLower(a) == ToLower(b)
  {
    if |a| == |b| {
      forall i | 0 <= i < |a| ensures CaseVariants(a[i], b[i]) <==> ToLower(a)[i] == ToLower(b)[i] {
        VariantsLowerAlike(a[i], b[i]);
      }
    } else {
      assert |ToLower(a)| != |ToLower(b)|;
    }
  }

  /** Normal forms are equal exactly when the names are the same up to white space and case. */
  lemma NormalFormsDecide(a: string, b: string)
    ensures NormalizeCountry(a) == NormalizeCountry(b) <==> SameCountry(a, b)
  {
    TrimFindsCore(a);
    TrimFindsCore(b);
    FoldIsLower(TrimSpace(a), TrimSpace(b));
    if x, y :| HasCore(a, x) && HasCore(b, y) && EqualFold(x, y) {
      CoreIsTrimmed(a, x);
      CoreIsTrimmed(b, y);
    }
  }

  lemma LowerKeepsSolid(s: string)
    requires Solid(s)
    ensures Solid(ToLower(s))
  {
    if s != "" {
      assert ToLower(s)[0] == LowerChar(s[0]);
    }
  }

  lemma LowerTwice(s: string)
    ensures ToLower(ToLower(s)) == ToLower(s)
  {
    forall i | 0 <= i < |s| ensures ToLower(ToLower(s))[i] == ToLower(s)[i] {
      assert LowerChar(LowerChar(s[i])) == LowerChar(s[i]);
    }
  }

  lemma SolidStays(s: string)
    requires Solid(s)
    ensures TrimSpace(s) == s
  {
    assert TrimLeft(s) == s;
    assert TrimRight(s) == s;
  }

  /** Normalising twice is normalising once. */
  lemma NormalizeIsIdempotent(s: string)
    ensures NormalizeCountry(NormalizeCountry(s)) == NormalizeCountry(s)
  {
    var core := TrimSpace(s);
    TrimFindsCore(s);
    LowerKeepsSolid(core);
    SolidStays(ToLower(core));
    LowerTwice(core);
  }
}
