/** The two slug functions, of the runner and of the case generator, and why "__" joins of their
    results decode uniquely (benchmarking/run_benchmarks.py and benchmarking/generate_cases.py). */
module Slugs {
  import opened Text

  function LowerChar(c: char): char {
    if 'A' <= c <= 'Z' then 'a' + (c as int - 'A' as int) as char else c
  }

  function Lower(s: string): string {
    seq(|s|, k requires 0 <= k < |s| => LowerChar(s[k]))
  }

  predicate Kept(c: char) { 'a' <= c <= 'z' || '0' <= c <= '9' }

  function SkipRun(s: string): (r: string)
    ensures |r| <= |s| && (r != "" ==> Kept(r[0]))
  {
    if s != "" && !Kept(s[0]) then SkipRun(s[1..]) else s
  }

  /** Every maximal run of characters outside [a-z0-9] becomes one underscore. */
  function ReplaceRuns(s: string): string
    decreases |s|
  {
    if s == "" then ""
    else if Kept(s[0]) then [s[0]] + ReplaceRuns(s[1..])
    else "_" + ReplaceRuns(SkipRun(s[1..]))
  }

  /** Every run of underscores becomes one. */
  function CollapseUnderscores(s: string): string
    decreases |s|
  {
    if s == "" then ""
    else if |s| >= 2 && s[0] == '_' && s[1] == '_' then CollapseUnderscores(s[1..])
    else [s[0]] + CollapseUnderscores(s[1..])
  }

  function StripLeading(s: string): string {
    if s != "" && s[0] == '_' then StripLeading(s[1..]) else s
  }

  function StripTrailing(s: string): string {
    if s != "" && s[|s| - 1] == '_' then StripTrailing(s[..|s| - 1]) else s
  }

  function StripUnderscores(s: string): string { StripTrailing(StripLeading(s)) }

  /** slug of run_benchmarks.py */
  function Slug(value: string): string { StripUnderscores(ReplaceRuns(Lower(value))) }

  /** slug of generate_cases.py */
  function GeneratorSlug(value: string): string {
    StripUnderscores(CollapseUnderscores(ReplaceRuns(Lower(value))))
  }

  predicate NoDouble(s: string) {
    forall k :: 0 <= k < |s| - 1 ==> !(s[k] == '_' && s[k + 1] == '_')
  }

  predicate SlugChars(s: string) {
    forall k :: 0 <= k < |s| ==> 'a' <= s[k] <= 'z' || '0' <= s[k] <= '9' || s[k] == '_'
  }

  /** A part that a following "__" cannot run into. */
  predicate Clean(s: string) {
    NoDouble(s) && (s != "" ==> s[|s| - 1] != '_')
  }

  lemma {:induction false} ReplacedShape(s: string)
    ensures NoDouble(ReplaceRuns(s)) && SlugChars(ReplaceRuns(s))
    ensures s != "" ==> ReplaceRuns(s) != "" && (Kept(s[0]) ==> ReplaceRuns(s)[0] == s[0])
    decreases |s|
  {
    if s == "" {
    } else {
      ReplacedShape(if Kept(s[0]) then s[1..] else SkipRun(s[1..]));
    }
  }

  lemma {:induction false} CollapseNothing(s: string)
    requires NoDouble(s)
    ensures CollapseUnderscores(s) == s
  {
    if s == "" {
    } else {
      assert NoDouble(s[1..]);
      CollapseNothing(s[1..]);
    }
  }

  /** The generator's extra pass changes nothing: the two slugs are the same function. */
  lemma SlugsAgree(value: string)
    ensures GeneratorSlug(value) == Slug(value)
  {
    ReplacedShape(Lower(value));
    CollapseNothing(ReplaceRuns(Lower(value)));
  }

  lemma {:induction false} StripLeadingShape(s: string)
    requires NoDouble(s) && SlugChars(s)
    ensures var r := StripLeading(s); NoDouble(r) && SlugChars(r) && (r != "" ==> r[0] != '_')
  {
    if s != "" && s[0] == '_' { StripLeadingShape(s[1..]); }
  }

  lemma {:induction false} StripTrailingShape(s: string)
    requires NoDouble(s) && SlugChars(s) && (s != "" ==> s[0] != '_')
    ensures var r := StripTrailing(s); Clean(r) && SlugChars(r) && (r != "" ==> r[0] != '_')
  {
    if s != "" && s[|s| - 1] == '_' { StripTrailingShape(s[..|s| - 1]); }
  }

  /** For every text: lower-case letters, digits and single inner underscores only. */
  lemma SlugIsClean(value: string)
    ensures Clean(Slug(value)) && SlugChars(Slug(value))
    ensures Slug(value) != "" ==> Slug(value)[0] != '_'
  {
    ReplacedShape(Lower(value));
    StripLeadingShape(ReplaceRuns(Lower(value)));
    StripTrailingShape(StripLeading(ReplaceRuns(Lower(value))));
  }

  // ----- a slug is the words of a text joined by underscores -----

  /** Length of the run of letters and digits at the start. */
  function RunLength(s: string): (n: nat)
    ensures n <= |s| && (forall k :: 0 <= k < n ==> Kept(s[k])) && (n < |s| ==> !Kept(s[n]))
  {
    if s != "" && Kept(s[0]) then 1 + RunLength(s[1..]) else 0
  }

  /** The maximal runs of lower-case letters and digits. */
  function Words(s: string): seq<string>
    decreases |s|
  {
    if s == "" then []
    else if RunLength(s) == 0 then Words(s[1..])
    else [s[..RunLength(s)]] + Words(s[RunLength(s)..])
  }

  predicate AllKept(s: string) { forall k :: 0 <= k < |s| ==> Kept(s[k]) }

  lemma {:induction false} ReplacedAfterWord(word: string, rest: string)
    requires AllKept(word)
    ensures ReplaceRuns(word + rest) == word + ReplaceRuns(rest)
  {
    if word == "" {
      assert word + rest == rest;
    } else {
      ReplacedAfterWord(word[1..], rest);
      assert (word + rest)[1..] == word[1..] + rest;
    }
  }

  lemma {:induction false} SkippedWords(s: string)
    ensures Words(SkipRun(s)) == Words(s) && (SkipRun(s) != "" ==> SkipRun(s)[|SkipRun(s)| - 1] == s[|s| - 1])
  {
    if s == "" || Kept(s[0]) {
    } else {
      SkippedWords(s[1..]);
    }
  }

  lemma {:induction false} SkippedNothing(s: string)
    requires SkipRun(s) == ""
    ensures Words(s) == [] && forall k :: 0 <= k < |s| ==> !Kept(s[k])
  {
    if s == "" {
    } else {
      SkippedNothing(s[1..]);
    }
  }

  /** A trailing underscore if the text ends outside a word. */
  function Tail(s: string): string { if s != "" && !Kept(s[|s| - 1]) then "_" else "" }

  lemma GapReplaced(gap: string)
    requires gap != "" && !Kept(gap[0])
    ensures ReplaceRuns(gap) == "_" + ReplaceRuns(SkipRun(gap[1..])) && Words(gap) == Words(SkipRun(gap[1..]))
  {
    SkippedWords(gap[1..]);
  }

  lemma GapTail(gap: string)
    requires gap != "" && !Kept(gap[0])
    ensures Tail(gap) == if SkipRun(gap[1..]) == "" then "_" else Tail(SkipRun(gap[1..]))
  {
    SkippedWords(gap[1..]);
    if SkipRun(gap[1..]) == "" { SkippedNothing(gap[1..]); }
    assert |gap| > 1 ==> gap[|gap| - 1] == gap[1..][|gap| - 2];
  }

  lemma {:induction false} RunLengthIs(word: string, gap: string)
    requires AllKept(word) && (gap != "" ==> !Kept(gap[0]))
    ensures RunLength(word + gap) == |word|
  {
    if word == "" {
      assert word + gap == gap;
    } else {
      RunLengthIs(word[1..], gap);
      assert (word + gap)[1..] == word[1..] + gap;
    }
  }

  lemma WordThenGap(word: string, gap: string)
    requires word != "" && AllKept(word) && (gap != "" ==> !Kept(gap[0]))
    ensures Words(word + gap) == [word] + Words(gap) && Tail(word + gap) == Tail(gap)
  {
    var s := word + gap;
    RunLengthIs(word, gap);
    assert s[..|word|] == word && s[|word|..] == gap;
    assert s[|s| - 1] == if gap == "" then word[|word| - 1] else gap[|gap| - 1];
  }

  lemma JoinMore(word: string, words: seq<string>)
    ensures Join([word] + words, "_") == if words == [] then word else word + "_" + Join(words, "_")
  {
    assert words != [] ==> ([word] + words)[1..] == words;
  }

  /** What the lemma below says of a text. */
  predicate Spelled(s: string, words: seq<string>, tail: string) {
    words != [] && ReplaceRuns(s) == Join(words, "_") + tail
  }

  lemma SpellWord(word: string, gap: string)
    requires word != "" && AllKept(word) && gap != "" && !Kept(gap[0]) && SkipRun(gap[1..]) == ""
    ensures Spelled(word + gap, [word], "_")
  {
    ReplacedAfterWord(word, gap);
    GapReplaced(gap);
    JoinMore(word, []);
    assert [word] + [] == [word];
  }

  lemma Regroup(word: string, joined: string, tail: string)
    ensures word + ("_" + (joined + tail)) == word + "_" + joined + tail
  {}

  lemma SpellMore(word: string, gap: string, words: seq<string>, tail: string)
    requires word != "" && AllKept(word) && gap != "" && !Kept(gap[0]) && Spelled(SkipRun(gap[1..]), words, tail)
    ensures Spelled(word + gap, [word] + words, tail)
  {
    ReplacedAfterWord(word, gap);
    GapReplaced(gap);
    JoinMore(word, words);
    Regroup(word, Join(words, "_"), tail);
  }

  /** A text that starts with a word, its runs replaced. */
  lemma {:induction false} ReplacedWords(s: string)
    requires s != "" && Kept(s[0])
    ensures Spelled(s, Words(s), Tail(s))
    decreases |s|
  {
    var word, gap := s[..RunLength(s)], s[RunLength(s)..];
    assert s == word + gap;
    WordThenGap(word, gap);
    if gap == "" {
      ReplacedAfterWord(word, "");
      JoinMore(word, []);
      assert word + "" == word && [word] + [] == [word];
    } else {
      GapReplaced(gap);
      GapTail(gap);
      if SkipRun(gap[1..]) == "" {
        SpellWord(word, gap);
        assert [word] + [] == [word];
      } else {
        ReplacedWords(SkipRun(gap[1..]));
        SpellMore(word, gap, Words(gap), Tail(gap));
      }
    }
  }

  lemma {:induction false} JoinedWords(s: string)
    requires Words(s) != []
    ensures var joined := Join(Words(s), "_"); joined != "" && Kept(joined[0]) && Kept(joined[|joined| - 1])
    decreases |s|
  {
    if RunLength(s) == 0 {
      JoinedWords(s[1..]);
    } else if Words(s[RunLength(s)..]) == [] {
      assert Words(s) == [s[..RunLength(s)]];
    } else {
      JoinedWords(s[RunLength(s)..]);
      assert Words(s)[1..] == Words(s[RunLength(s)..]);
    }
  }

  lemma LeadOff(t: string)
    requires t != "" && t[0] != '_'
    ensures StripLeading(t) == t && StripLeading("_" + t) == t
  {
    assert ("_" + t)[1..] == t;
  }

  lemma TailOff(t: string)
    requires t != "" && t[|t| - 1] != '_'
    ensures StripTrailing(t) == t && StripTrailing(t + "_") == t
  {
    assert (t + "_")[..|t|] == t;
  }

  lemma StripAround(joined: string, tail: string)
    requires joined != "" && Kept(joined[0]) && Kept(joined[|joined| - 1]) && (tail == "" || tail == "_")
    ensures StripUnderscores(joined + tail) == joined && StripUnderscores("_" + (joined + tail)) == joined
  {
    LeadOff(joined + tail);
    TailOff(joined);
    assert joined + "" == joined;
  }

  /** For every text: the slug is the text's maximal runs of letters and digits, in lower case and
      joined by single underscores. */
  lemma SlugIsWords(value: string)
    ensures Slug(value) == Join(Words(Lower(value)), "_")
    ensures |Lower(value)| == |value| && forall k :: 0 <= k < |value| ==>
      Lower(value)[k] == if 'A' <= value[k] <= 'Z' then value[k] + 32 as char else value[k]
  {
    var s := Lower(value);
    if s == "" {
    } else if Kept(s[0]) {
      ReplacedWords(s);
      JoinedWords(s);
      StripAround(Join(Words(s), "_"), Tail(s));
    } else {
      GapReplaced(s);
      var rest := SkipRun(s[1..]);
      if rest == "" {
        assert ReplaceRuns(s) == "_" && "_"[1..] == "";
      } else {
        ReplacedWords(rest);
        JoinedWords(rest);
        StripAround(Join(Words(rest), "_"), Tail(rest));
      }
    }
  }

  lemma CleanOccurrence(p: string, r: string)
    requires Clean(p)
    ensures Find("__", p + "__" + r).Some? && Find("__", p + "__" + r).value == |p|
  {
    var s := p + "__" + r;
    assert OccursAt("__", s, |p|);
    var i := Find("__", s).value;
    assert s[i..i + 2][0] == s[i] && s[i..i + 2][1] == s[i + 1];
  }

  /** A join with "__" shows where a clean first part ends. */
  lemma JoinDecodes(p: string, r: string, p': string, r': string)
    requires Clean(p) && Clean(p') && p + "__" + r == p' + "__" + r'
    ensures p == p' && r == r'
  {
    var s := p + "__" + r;
    CleanOccurrence(p, r);
    CleanOccurrence(p', r');
    assert p == s[..|p|] == p';
    assert r == s[|p| + 2..] == r';
  }

  lemma SamePrefix(p: string, r: string, r': string)
    requires p + r == p + r'
    ensures r == r'
  {
    assert r == (p + r)[|p|..] == (p + r')[|p|..] == r';
  }

  // ----- names made of letters, digits and single inner hyphens -----

  predicate SimpleName(s: string) {
    && (forall k :: 0 <= k < |s| ==> Kept(LowerChar(s[k])) || s[k] == '-')
    && (s != "" ==> s[|s| - 1] != '-')
    && forall k :: 0 <= k < |s| - 1 ==> !(s[k] == '-' && s[k + 1] == '-')
  }

  function SimpleSlugChar(c: char): char { if c == '-' then '_' else LowerChar(c) }

  lemma {:induction false} SimpleReplaced(s: string)
    requires SimpleName(s)
    ensures |ReplaceRuns(Lower(s))| == |s|
    ensures forall k :: 0 <= k < |s| ==> ReplaceRuns(Lower(s))[k] == SimpleSlugChar(s[k])
  {
    if s == "" {
    } else {
      assert Lower(s)[1..] == Lower(s[1..]);
      assert s[0] == '-' ==> |s| > 1 && Kept(LowerChar(s[1])) && Lower(s[1..])[0] == LowerChar(s[1]);
      assert SkipRun(Lower(s[1..])) == Lower(s[1..]) || s[0] != '-';
      SimpleReplaced(s[1..]);
    }
  }

  /** On such names a slug only lower-cases and turns hyphens to underscores, so names that differ
      in more than case keep different slugs. */
  lemma SimpleSlug(s: string)
    requires SimpleName(s) && (s != "" ==> s[0] != '-')
    ensures |Slug(s)| == |s| && forall k :: 0 <= k < |s| ==> Slug(s)[k] == SimpleSlugChar(s[k])
  {
    SimpleReplaced(s);
    if s != "" {
      var t := ReplaceRuns(Lower(s));
      assert t[0] == SimpleSlugChar(s[0]) != '_' && t[|s| - 1] == SimpleSlugChar(s[|s| - 1]) != '_';
      assert StripLeading(t) == t && StripTrailing(t) == t;
    }
  }
}
