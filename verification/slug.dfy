/** Filename slugs: `slug` and `metal_slug`. */
module Slugs {
  import opened Form

  /** An ASCII upper-case letter. */
  predicate IsUpper(c: char) {
    'A' <= c <= 'Z'
  }

  /** The characters `slug` rewrites after lower-casing (the en-dash is U+2013). */
  const Special: set<char> := {' ', '/', '&', '-', '\U{2013}', '$', ',', '+'}

  /** A string `slug` leaves alone: no ASCII capital and no special character. */
  predicate IsSlugSafe(s: string) {
    forall x | x in s :: !IsUpper(x) && x !in Special
  }

  /** Lower-cases one character; only ASCII A-Z change. */
  function LowerChar(c: char): (d: char)
    ensures !IsUpper(d)
    ensures !IsUpper(c) ==> d == c
    ensures IsUpper(c) ==> d as int == c as int + 32
  {
    if IsUpper(c) then (c as int + 32) as char else c
  }

  /** `s.lower()`, restricted to ASCII letters. */
  function Lower(s: string): (r: string)
    ensures |r| == |s|
    ensures forall x | x in r :: !IsUpper(x)
    ensures forall i | 0 <= i < |s| :: !IsUpper(s[i]) ==> r[i] == s[i]
    ensures forall i | 0 <= i < |s| :: IsUpper(s[i]) ==> r[i] as int == s[i] as int + 32
  {
    seq(|s|, i requires 0 <= i < |s| => LowerChar(s[i]))
  }

  /**
   * `s.replace(c, repl)` for a one-character pattern `c`: every occurrence of
   * `c` becomes `repl`, every other character is kept, order is preserved.
   */
  function ReplaceChar(s: string, c: char, repl: string): (r: string)
    ensures c !in s ==> r == s
    ensures c !in repl ==> c !in r
  {
    if s == [] then [] else ReplaceHead(s[0], c, repl) + ReplaceChar(s[1..], c, repl)
  }

  /** What `ReplaceChar` makes of one character. */
  function ReplaceHead(x: char, c: char, repl: string): string {
    if x == c then repl else [x]
  }

  /** `slug(s)`: lower-case, then the eight replacements in source order. */
  function Slug(s: string): string {
    var t0 := Lower(s);
    var t1 := ReplaceChar(t0, ' ', "_");
    var t2 := ReplaceChar(t1, '/', "_");
    var t3 := ReplaceChar(t2, '&', "and");
    var t4 := ReplaceChar(t3, '-', "_");
    var t5 := ReplaceChar(t4, '\U{2013}', "_");
    var t6 := ReplaceChar(t5, '$', "");
    var t7 := ReplaceChar(t6, ',', "");
    ReplaceChar(t7, '+', "plus")
  }

  /** What the chain in `Slug` makes of one character, written as one table. */
  function SlugChar(c: char): string {
    match LowerChar(c)
    case ' ' => "_"
    case '/' => "_"
    case '&' => "and"
    case '-' => "_"
    case '\U{2013}' => "_"
    case '$' => ""
    case ',' => ""
    case '+' => "plus"
    case d => [d]
  }

  /** The slug as a character-by-character rewrite, independent of `Slug`. */
  function SlugCharwise(s: string): string {
    if s == [] then [] else SlugChar(s[0]) + SlugCharwise(s[1..])
  }

  lemma {:induction false} LowerAppend(a: string, b: string)
    ensures Lower(a + b) == Lower(a) + Lower(b)
  {
  }

  lemma {:induction false} ReplaceCharAppend(a: string, b: string, c: char, repl: string)
    ensures ReplaceChar(a + b, c, repl) == ReplaceChar(a, c, repl) + ReplaceChar(b, c, repl)
  {
    if a == [] {
      assert a + b == b;
    } else {
      assert (a + b)[0] == a[0];
      assert (a + b)[1..] == a[1..] + b;
      ReplaceCharAppend(a[1..], b, c, repl);
      var h := ReplaceHead(a[0], c, repl);
      assert ReplaceChar(a + b, c, repl) == h + (ReplaceChar(a[1..], c, repl) + ReplaceChar(b, c, repl));
    }
  }

  /** Slugging distributes over concatenation. */
  lemma SlugAppend(a: string, b: string)
    ensures Slug(a + b) == Slug(a) + Slug(b)
  {
    LowerAppend(a, b);
    var t0a, t0b := Lower(a), Lower(b);
    ReplaceCharAppend(t0a, t0b, ' ', "_");
    var t1a, t1b := ReplaceChar(t0a, ' ', "_"), ReplaceChar(t0b, ' ', "_");
    ReplaceCharAppend(t1a, t1b, '/', "_");
    var t2a, t2b := ReplaceChar(t1a, '/', "_"), ReplaceChar(t1b, '/', "_");
    ReplaceCharAppend(t2a, t2b, '&', "and");
    var t3a, t3b := ReplaceChar(t2a, '&', "and"), ReplaceChar(t2b, '&', "and");
    ReplaceCharAppend(t3a, t3b, '-', "_");
    var t4a, t4b := ReplaceChar(t3a, '-', "_"), ReplaceChar(t3b, '-', "_");
    ReplaceCharAppend(t4a, t4b, '\U{2013}', "_");
    var t5a, t5b := ReplaceChar(t4a, '\U{2013}', "_"), ReplaceChar(t4b, '\U{2013}', "_");
    ReplaceCharAppend(t5a, t5b, '$', "");
    var t6a, t6b := ReplaceChar(t5a, '$', ""), ReplaceChar(t5b, '$', "");
    ReplaceCharAppend(t6a, t6b, ',', "");
    var t7a, t7b := ReplaceChar(t6a, ',', ""), ReplaceChar(t6b, ',', "");
    ReplaceCharAppend(t7a, t7b, '+', "plus");
  }

  lemma ReplaceCharSingle(x: char, c: char, repl: string)
    ensures ReplaceChar([x], c, repl) == if x == c then repl else [x]
  {
    assert [x][1..] == [];
    assert ReplaceChar([x], c, repl) == ReplaceHead(x, c, repl) + [];
  }

  /** One step of the chain applied to what is left of a one-character string. */
  lemma ReplaceStep(t: string, d: char, c: char, repl: string)
    requires t == [d] || c !in t
    ensures ReplaceChar(t, c, repl) == if t == [d] && d == c then repl else t
  {
    if t == [d] {
      ReplaceCharSingle(d, c, repl);
    }
  }

  /** On a one-character string the chain and the table agree. */
  lemma SlugSingle(c: char)
    ensures Slug([c]) == SlugChar(c)
  {
    var d := LowerChar(c);
    var t0 := Lower([c]);
    assert t0 == [d];
    ReplaceStep(t0, d, ' ', "_");
    var t1 := ReplaceChar(t0, ' ', "_");
    assert t1 == if d == ' ' then "_" else [d];
    ReplaceStep(t1, d, '/', "_");
    var t2 := ReplaceChar(t1, '/', "_");
    assert t2 == if d == ' ' || d == '/' then "_" else [d];
    ReplaceStep(t2, d, '&', "and");
    var t3 := ReplaceChar(t2, '&', "and");
    assert t3 == if d == ' ' || d == '/' then "_" else if d == '&' then "and" else [d];
    ReplaceStep(t3, d, '-', "_");
    var t4 := ReplaceChar(t3, '-', "_");
    ReplaceStep(t4, d, '\U{2013}', "_");
    var t5 := ReplaceChar(t4, '\U{2013}', "_");
    assert t5 == if d in {' ', '/', '-', '\U{2013}'} then "_" else if d == '&' then "and" else [d];
    ReplaceStep(t5, d, '$', "");
    var t6 := ReplaceChar(t5, '$', "");
    ReplaceStep(t6, d, ',', "");
    var t7 := ReplaceChar(t6, ',', "");
    assert t7 == if d in {' ', '/', '-', '\U{2013}'} then "_" else if d == '&' then "and"
                 else if d == '$' || d == ',' then "" else [d];
    ReplaceStep(t7, d, '+', "plus");
  }

  /** The chained `replace` calls amount to rewriting each character on its own. */
  lemma {:induction false} SlugIsCharwise(s: string)
    ensures Slug(s) == SlugCharwise(s)
  {
    if s == [] {
      assert Lower(s) == [];
    } else {
      assert s == [s[0]] + s[1..];
      SlugAppend([s[0]], s[1..]);
      SlugSingle(s[0]);
      SlugIsCharwise(s[1..]);
    }
  }

  /** Each character's rewrite is slug-safe. */
  lemma SlugCharSafe(c: char)
    ensures IsSlugSafe(SlugChar(c))
  {
  }

  lemma {:induction false} SlugCharwiseSafe(s: string)
    ensures IsSlugSafe(SlugCharwise(s))
  {
    if s != [] {
      SlugCharSafe(s[0]);
      SlugCharwiseSafe(s[1..]);
    }
  }

  /** No slug holds an ASCII capital or any of the eight special characters. */
  lemma SlugIsSafe(s: string)
    ensures IsSlugSafe(Slug(s))
  {
    SlugIsCharwise(s);
    SlugCharwiseSafe(s);
  }

  /** A string is its own slug exactly when it is slug-safe. */
  lemma SlugFixedPoints(s: string)
    ensures Slug(s) == s <==> IsSlugSafe(s)
  {
    if IsSlugSafe(s) {
      assert Lower(s) == s;
    } else {
      SlugIsSafe(s);
    }
  }

  /** Slugging twice is slugging once. */
  lemma SlugIdempotent(s: string)
    ensures Slug(Slug(s)) == Slug(s)
  {
    SlugIsSafe(s);
    SlugFixedPoints(Slug(s));
  }

  /** The fixed names `metal_slug` gives the five known metals. */
  const MetalNames: map<string, string> := map[
    "Yellow Gold" := "yellow",
    "White Gold" := "white",
    "Rose Gold" := "rose",
    "Silver" := "silver",
    "Platinum" := "platinum"
  ]

  /** `metal_slug(metal)`: the fixed short name of a known metal, otherwise `slug(metal)`. */
  function MetalSlug(metal: string): (r: string)
    ensures metal !in {"Yellow Gold", "White Gold", "Rose Gold", "Silver", "Platinum"} ==> r == Slug(metal)
  {
    if metal in MetalNames then MetalNames[metal] else Slug(metal)
  }

  /** A string of lower-case ASCII letters is slug-safe. */
  lemma LettersAreSafe(s: string)
    requires forall x | x in s :: 'a' <= x <= 'z'
    ensures IsSlugSafe(s)
  {
  }

  /** Metal slugs are slug-safe too. */
  lemma MetalSlugIsSafe(metal: string)
    ensures IsSlugSafe(MetalSlug(metal))
  {
    if metal in MetalNames {
      var r := MetalNames[metal];
      assert r == "yellow" || r == "white" || r == "rose" || r == "silver" || r == "platinum";
      LettersAreSafe(r);
    } else {
      SlugIsSafe(metal);
    }
  }

  /** Different metals on the form get different slugs. */
  lemma MetalSlugsDistinct(i: int, j: int)
    requires 0 <= i < j < |Metals|
    ensures MetalSlug(Metals[i]) != MetalSlug(Metals[j])
  {
    KnownMetalSlugs();
  }

  /** The five known metals get exactly these names. */
  lemma KnownMetalSlugs()
    ensures MetalSlug("Yellow Gold") == "yellow"
    ensures MetalSlug("White Gold") == "white"
    ensures MetalSlug("Rose Gold") == "rose"
    ensures MetalSlug("Silver") == "silver"
    ensures MetalSlug("Platinum") == "platinum"
  {
  }
}
