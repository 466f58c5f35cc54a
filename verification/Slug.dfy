/** Slugs: display names turned into short identifiers. */
module Slug {

  const MAX_SLUG := 48

  predicate IsAlnum(c: char) { 'a' <= c <= 'z' || '0' <= c <= '9' }

  // ---- The string library's part ----------------------------------------------------------

  /** `lower` and `isWord` stand for Unicode's lower-casing and letter-or-digit tables; only what they say
      about ASCII matters. */
  ghost predicate AsciiTables(lower: char -> char, isWord: char -> bool) {
    forall c: char :: c as int < 128 ==>
      && lower(c) == (if 'A' <= c <= 'Z' then (c as int + 32) as char else c)
      && (isWord(c) <==> IsAlnum(lower(c)))
  }

  function ToLower(s: string, lower: char -> char): string { seq(|s|, i requires 0 <= i < |s| => lower(s[i])) }

  function TrimLeft(s: string, c: char): string {
    if s != "" && s[0] == c then TrimLeft(s[1..], c) else s
  }

  function TrimRight(s: string, c: char): string {
    if s != "" && s[|s| - 1] == c then TrimRight(s[..|s| - 1], c) else s
  }

  function Trim(s: string, c: char): string { TrimRight(TrimLeft(s, c), c) }

  /** Every maximal run of characters outside `[a-z0-9]` becomes one underscore. */
  function ReplaceRuns(s: string): string {
    if s == "" then "" else
      var before, c := ReplaceRuns(s[..|s| - 1]), s[|s| - 1];
      if IsAlnum(c) then before + [c]
      else if |s| > 1 && !IsAlnum(s[|s| - 2]) then before
      else before + "_"
  }

  // ---- What a slug is ---------------------------------------------------------------------

  predicate SlugChars(s: string) { forall i :: 0 <= i < |s| ==> IsAlnum(s[i]) || s[i] == '_' }

  predicate SingleInnerUnderscores(s: string) {
    && (s != "" ==> s[0] != '_')
    && forall i :: 0 <= i < |s| - 1 ==> !(s[i] == '_' == s[i + 1])
  }

  predicate IsSlug(s: string) {
    && |s| <= MAX_SLUG && SlugChars(s) && SingleInnerUnderscores(s)
    && (s != "" ==> s[|s| - 1] != '_')
  }

  /** The letters and digits of a text, with one underscore wherever others stood after the first of them. */
  function Normal(s: string): string {
    if s == "" then "" else
      var before, c := Normal(s[..|s| - 1]), s[|s| - 1];
      if IsAlnum(c) then before + [c]
      else if before == "" || before[|before| - 1] == '_' then before
      else before + "_"
  }

  function Cut(s: string): string {
    if |s| > MAX_SLUG then TrimRight(s[..MAX_SLUG], '_') else s
  }

  function SlugOf(lowered: string): string { Cut(TrimRight(Normal(lowered), '_')) }

  /** The letters and digits alone. */
  function Kept(s: string): string {
    if s == "" then "" else
      var before, c := Kept(s[..|s| - 1]), s[|s| - 1];
      if IsAlnum(c) then before + [c] else before
  }

  // ---- The pipeline -----------------------------------------------------------------------

  /** Characters that stand for others as separators leave the normal form as it is. */
  predicate SameWords(s: string, t: string) {
    |s| == |t| && forall i :: 0 <= i < |s| ==> if IsAlnum(s[i]) then t[i] == s[i] else !IsAlnum(t[i])
  }

  lemma {:induction false} NormalOfSameWords(s: string, t: string)
    requires SameWords(s, t)
    ensures Normal(s) == Normal(t)
  {
    if s != "" {
      NormalOfSameWords(s[..|s| - 1], t[..|t| - 1]);
    }
  }

  lemma {:induction false} NormalSkipsLeading(c: char, s: string)
    requires !IsAlnum(c)
    ensures Normal([c] + s) == Normal(s)
  {
    if s != "" {
      NormalSkipsLeading(c, s[..|s| - 1]);
      assert ([c] + s)[..|s|] == [c] + s[..|s| - 1];
    } else {
      assert ([c] + s)[..0] == "";
    }
  }

  lemma TrimOneMore(s: string)
    ensures TrimRight(s + "_", '_') == TrimRight(s, '_')
  {
    assert (s + "_")[..|s|] == s;
  }

  lemma {:induction false} NormalOfTrimmedLeft(s: string)
    ensures Normal(TrimLeft(s, ' ')) == Normal(s)
  {
    if s != "" && s[0] == ' ' {
      NormalOfTrimmedLeft(s[1..]);
      NormalSkipsLeading(' ', s[1..]);
      assert s == [' '] + s[1..];
    }
  }

  lemma NormalOfSpaceAfter(s: string)
    requires s != "" && s[|s| - 1] == ' '
    ensures Normal(s) in {Normal(s[..|s| - 1]), Normal(s[..|s| - 1]) + "_"}
  {
  }

  lemma {:induction false} NormalOfTrimmedRight(s: string)
    ensures TrimRight(Normal(TrimRight(s, ' ')), '_') == TrimRight(Normal(s), '_')
  {
    if s != "" && s[|s| - 1] == ' ' {
      NormalOfTrimmedRight(s[..|s| - 1]);
      TrimOneMore(Normal(s[..|s| - 1]));
      NormalOfSpaceAfter(s);
      hide Normal;
    }
  }

  /** Runs replaced and the leading underscore trimmed, a text is in normal form. */
  lemma {:induction false} RunsAreNormal(s: string)
    ensures TrimLeft(ReplaceRuns(s), '_') == Normal(s)
    ensures ReplaceRuns(s) == "" || ReplaceRuns(s) == Normal(s) || ReplaceRuns(s) == "_" + Normal(s)
    ensures s != "" ==> ReplaceRuns(s) != "" && (ReplaceRuns(s)[|ReplaceRuns(s)| - 1] == '_' <==> !IsAlnum(s[|s| - 1]))
    ensures Normal(s) != "" ==>
              Normal(s)[0] != '_' && Normal(s)[|Normal(s)| - 1] == ReplaceRuns(s)[|ReplaceRuns(s)| - 1]
  {
    if s != "" {
      RunsAreNormal(s[..|s| - 1]);
    }
  }

  /** What the passes over a text compute, whatever the letters-and-digits table says outside ASCII. */
  lemma PassesComputeSlug(lowered: string, spaced: string)
    requires SameWords(lowered, spaced)
    ensures Cut(Trim(ReplaceRuns(Trim(spaced, ' ')), '_')) == SlugOf(lowered)
  {
    NormalOfSameWords(lowered, spaced);
    NormalOfTrimmedLeft(spaced);
    NormalOfTrimmedRight(TrimLeft(spaced, ' '));
    RunsAreNormal(Trim(spaced, ' '));
  }

  method Slugify(name: string, lower: char -> char, isWord: char -> bool) returns (slug: string)
    requires AsciiTables(lower, isWord)
    ensures slug == SlugOf(ToLower(name, lower))
  {
    var s := ToLower(name, lower);
    var b := "";
    for i := 0 to |s|
      invariant SameWords(s[..i], b)
    {
      if isWord(s[i]) {
        b := b + [s[i]];
      } else {
        b := b + " ";
      }
    }
    assert s[..|s|] == s;
    PassesComputeSlug(s, b);
    slug := ReplaceRuns(Trim(b, ' '));
    slug := Trim(slug, '_');
    if |slug| > MAX_SLUG {
      slug := slug[..MAX_SLUG];
      slug := TrimRight(slug, '_');
    }
  }

  // ---- Canonical form ---------------------------------------------------------------------

  lemma {:induction false} NormalIsClean(s: string)
    ensures SlugChars(Normal(s)) && SingleInnerUnderscores(Normal(s))
  {
    if s != "" {
      NormalIsClean(s[..|s| - 1]);
    }
  }

  lemma {:induction false} TrimRightCleans(s: string)
    requires SlugChars(s) && SingleInnerUnderscores(s)
    ensures var t := TrimRight(s, '_');
            t <= s && |t| >= |s| - 1 && SlugChars(t) && SingleInnerUnderscores(t) && (t != "" ==> t[|t| - 1] != '_')
  {
    if s != "" && s[|s| - 1] == '_' {
      TrimRightCleans(s[..|s| - 1]);
      assert |s| > 1 ==> s[|s| - 2] != '_';
    }
  }

  /** Every slug is canonical: at most 48 characters of `[a-z0-9_]`, no underscore first, last or twice. */
  lemma SlugIsCanonical(lowered: string)
    ensures IsSlug(SlugOf(lowered))
  {
    NormalIsClean(lowered);
    TrimRightCleans(Normal(lowered));
    var full := TrimRight(Normal(lowered), '_');
    if |full| > MAX_SLUG {
      TrimRightCleans(full[..MAX_SLUG]);
    }
  }

  lemma CleanByLast(s: string)
    requires s != "" && SlugChars(s) && SingleInnerUnderscores(s)
    ensures SlugChars(s[..|s| - 1]) && SingleInnerUnderscores(s[..|s| - 1])
    ensures IsAlnum(s[|s| - 1]) || (s[|s| - 1] == '_' && |s| > 1 && s[|s| - 2] != '_')
  {
    assert |s| > 1 ==> !(s[|s| - 2] == '_' == s[|s| - 1]);
  }

  lemma {:induction false} NormalOfClean(s: string)
    requires SlugChars(s) && SingleInnerUnderscores(s)
    ensures Normal(s) == s
  {
    if s != "" {
      var n := |s| - 1;
      CleanByLast(s);
      NormalOfClean(s[..n]);
      hide SlugChars, SingleInnerUnderscores;
      assert s == s[..n] + [s[n]];
    }
  }

  /** A text is its own slug exactly when it is canonical; so slugs of slugs change nothing. */
  lemma FixedPoints(s: string, lower: char -> char, isWord: char -> bool)
    requires AsciiTables(lower, isWord)
    ensures SlugOf(ToLower(s, lower)) == s <==> IsSlug(s)
  {
    SlugIsCanonical(ToLower(s, lower));
    if IsSlug(s) {
      forall i | 0 <= i < |s|
        ensures lower(s[i]) == s[i]
      {
        assert IsAlnum(s[i]) || s[i] == '_';
        assert s[i] as int < 128;
      }
      assert ToLower(s, lower) == s;
      NormalOfClean(s);
    }
  }

  lemma Idempotent(name: string, lower: char -> char, isWord: char -> bool)
    requires AsciiTables(lower, isWord)
    ensures var slug := SlugOf(ToLower(name, lower)); SlugOf(ToLower(slug, lower)) == slug
  {
    SlugIsCanonical(ToLower(name, lower));
    FixedPoints(SlugOf(ToLower(name, lower)), lower, isWord);
  }

  lemma {:induction false} NormalKeeps(s: string)
    ensures Kept(Normal(s)) == Kept(s)
  {
    if s != "" {
      var before, c := Normal(s[..|s| - 1]), s[|s| - 1];
      NormalKeeps(s[..|s| - 1]);
      assert (before + [c])[..|before|] == before && (before + "_")[..|before|] == before;
    }
  }

  lemma {:induction false} TrimRightKeeps(s: string)
    ensures Kept(TrimRight(s, '_')) == Kept(s)
  {
    if s != "" && s[|s| - 1] == '_' {
      TrimRightKeeps(s[..|s| - 1]);
    }
  }

  lemma {:induction false} KeptOfPrefix(s: string, n: nat)
    requires n <= |s|
    ensures Kept(s[..n]) <= Kept(s)
  {
    if n < |s| {
      KeptOfPrefix(s[..|s| - 1], n);
      assert s[..|s| - 1][..n] == s[..n];
    } else {
      assert s[..n] == s;
    }
  }

  /** No letter or digit is dropped, added or moved, except that a long slug is cut at its end; and the cut
      loses no more than it must. */
  lemma SlugKeepsTheLetters(lowered: string)
    ensures Kept(SlugOf(lowered)) <= Kept(lowered)
    ensures Kept(SlugOf(lowered)) == Kept(lowered) || |SlugOf(lowered)| >= MAX_SLUG - 1
  {
    NormalKeeps(lowered);
    TrimRightKeeps(Normal(lowered));
    var full := TrimRight(Normal(lowered), '_');
    if |full| > MAX_SLUG {
      KeptOfPrefix(full, MAX_SLUG);
      TrimRightKeeps(full[..MAX_SLUG]);
      NormalIsClean(lowered);
      TrimRightCleans(Normal(lowered));
      TrimRightCleans(full[..MAX_SLUG]);
    }
  }

  // ---- Words and gaps ---------------------------------------------------------------------

  predicate IsWord(s: string) { s != "" && forall i :: 0 <= i < |s| ==> IsAlnum(s[i]) }

  predicate IsGap(s: string) { forall i :: 0 <= i < |s| ==> !IsAlnum(s[i]) }

  /** Words with a gap before, between and after them; only the outer gaps may be empty. */
  predicate Woven(gaps: seq<string>, words: seq<string>) {
    && |gaps| == |words| + 1
    && (forall i :: 0 <= i < |words| ==> IsWord(words[i])) && (forall i :: 0 <= i < |gaps| ==> IsGap(gaps[i]))
    && forall i :: 0 < i < |words| ==> gaps[i] != ""
  }

  function Weave(gaps: seq<string>, words: seq<string>): string
    requires |gaps| == |words| + 1
  {
    if words == [] then gaps[0] else
      var n := |words|;
      Weave(gaps[..n], words[..n - 1]) + words[n - 1] + gaps[n]
  }

  /** The words with single underscores between them. */
  function Underscored(words: seq<string>): string {
    if words == [] then ""
    else if |words| == 1 then words[0]
    else Underscored(words[..|words| - 1]) + "_" + words[|words| - 1]
  }

  lemma {:induction false} NormalOfWord(s: string, w: string)
    requires forall i :: 0 <= i < |w| ==> IsAlnum(w[i])
    ensures Normal(s + w) == Normal(s) + w
  {
    if w == "" {
      assert s + w == s;
    } else {
      var n := |w| - 1;
      NormalOfWord(s, w[..n]);
      assert (s + w)[..|s| + n] == s + w[..n] && (s + w)[|s| + n] == w[n];
      assert Normal(s + w) == Normal(s + w[..n]) + [w[n]];
      hide Normal;
      assert w == w[..n] + [w[n]];
    }
  }

  lemma {:induction false} NormalOfGap(s: string, g: string)
    requires IsGap(g)
    ensures Normal(s + g) ==
            Normal(s) + if g == "" || Normal(s) == "" || Normal(s)[|Normal(s)| - 1] == '_' then "" else "_"
  {
    if g == "" {
      assert s + g == s && Normal(s) + "" == Normal(s);
    } else {
      var n := |g| - 1;
      NormalOfGap(s, g[..n]);
      assert (s + g)[..|s| + n] == s + g[..n] && Normal(s) + "" == Normal(s);
      assert s + g[..0] == s;
    }
  }

  lemma {:induction false} UnderscoredEnds(words: seq<string>)
    requires forall i :: 0 <= i < |words| ==> IsWord(words[i])
    ensures words != [] ==> Underscored(words) != "" && IsAlnum(Underscored(words)[|Underscored(words)| - 1])
  {
    if words != [] {
      var w := words[|words| - 1];
      assert IsWord(w) && IsAlnum(w[|w| - 1]);
    }
  }

  lemma {:induction false} NormalOfWeave(gaps: seq<string>, words: seq<string>)
    requires Woven(gaps, words)
    ensures Normal(Weave(gaps, words)) == Underscored(words) + if words != [] && gaps[|words|] != "" then "_" else ""
    decreases |words|
  {
    if words == [] {
      NormalOfGap("", gaps[0]);
      assert "" + gaps[0] == gaps[0];
    } else {
      var n := |words|;
      var before, w, g := Weave(gaps[..n], words[..n - 1]), words[n - 1], gaps[n];
      NormalOfWeave(gaps[..n], words[..n - 1]);
      NormalOfWord(before, w);
      NormalOfGap(before + w, g);
      UnderscoredEnds(words);
      assert IsWord(w);
      assert Normal(before) + w == Underscored(words);
      hide Normal, Underscored, Weave;
      assert Underscored(words) + "" == Underscored(words);
    }
  }

  /** Every text is words with gaps. */
  lemma {:induction false} EveryTextIsWoven(s: string) returns (gaps: seq<string>, words: seq<string>)
    ensures Woven(gaps, words) && Weave(gaps, words) == s
  {
    if s == "" {
      gaps, words := [""], [];
    } else {
      var m, c := |s| - 1, s[|s| - 1];
      gaps, words := EveryTextIsWoven(s[..m]);
      var n := |words|;
      assert s == s[..m] + [c];
      if !IsAlnum(c) {
        var longer := gaps[n] + [c];
        assert gaps[n := longer][..n] == gaps[..n];
        gaps := gaps[n := longer];
      } else if n > 0 && gaps[n] == "" {
        var longer := words[n - 1] + [c];
        assert words[n - 1 := longer][..n - 1] == words[..n - 1];
        words := words[n - 1 := longer];
      } else {
        assert (gaps + [""])[..n + 1] == gaps && (words + [[c]])[..n] == words;
        gaps, words := gaps + [""], words + [[c]];
      }
    }
  }

  lemma CutExact(full: string)
    requires SingleInnerUnderscores(full)
    ensures Cut(full) == if |full| <= MAX_SLUG then full
                         else if full[MAX_SLUG - 1] == '_' then full[..MAX_SLUG - 1] else full[..MAX_SLUG]
  {
    if |full| > MAX_SLUG {
      assert !(full[MAX_SLUG - 2] == '_' == full[MAX_SLUG - 1]);
      var long, short := full[..MAX_SLUG], full[..MAX_SLUG - 1];
      assert long[..MAX_SLUG - 1] == short && long[MAX_SLUG - 1] == full[MAX_SLUG - 1];
      assert short[MAX_SLUG - 2] == full[MAX_SLUG - 2];
      if full[MAX_SLUG - 1] == '_' {
        assert TrimRight(short, '_') == short;
      }
    }
  }

  /** The slug of words with gaps, whatever the gaps: the words with single underscores between them, cut to 48
      characters, or to 47 where the 48th would be an underscore. */
  lemma SlugOfWeave(gaps: seq<string>, words: seq<string>)
    requires Woven(gaps, words)
    ensures var (full, slug) := (Underscored(words), SlugOf(Weave(gaps, words)));
            slug == if |full| <= MAX_SLUG then full
                    else if full[MAX_SLUG - 1] == '_' then full[..MAX_SLUG - 1] else full[..MAX_SLUG]
  {
    var full, text := Underscored(words), Weave(gaps, words);
    NormalOfWeave(gaps, words);
    UnderscoredEnds(words);
    TrimOneMore(full);
    assert full + "" == full;
    assert TrimRight(Normal(text), '_') == full;
    NormalIsClean(text);
    TrimRightCleans(Normal(text));
    CutExact(full);
    hide Cut, Normal, TrimRight, Underscored, Weave;
  }
}
