/**
  Keyword extraction and comparison (utils/keyword_extractor.py).

  Text is normalised (lower case, punctuation to spaces, whitespace runs to a
  single space), tokenised on whitespace and filtered; tokens are ranked by
  frequency; fixed phrase lists (technical skills, soft skills, action verbs)
  are matched by substring containment; a CV's and a job description's keyword
  lists are compared as sets.
*/
module KeywordExtractor {
  import opened TextUtil

  // ---------------------------------------------------------------------------
  // Fixed phrase lists
  // ---------------------------------------------------------------------------

  /** The technical-skill taxonomy, category by category
      (programming, web, data, cloud, tools), in dictionary order. */
  const TechnicalSkillList: seq<string> := [
    "python", "java", "javascript", "c++", "c#", "php", "ruby", "go", "rust", "swift",
    "html", "css", "react", "vue", "angular", "node.js", "express", "django", "flask",
    "sql", "mongodb", "postgresql", "mysql", "pandas", "numpy", "scikit-learn", "tensorflow",
    "aws", "azure", "gcp", "docker", "kubernetes", "terraform", "jenkins",
    "git", "jira", "confluence", "slack", "figma", "photoshop", "excel"
  ]

  const ActionVerbList: seq<string> := [
    "achieved", "managed", "led", "developed", "implemented", "created", "designed",
    "improved", "increased", "reduced", "optimized", "collaborated", "coordinated",
    "supervised", "trained", "analyzed", "evaluated", "researched", "planned"
  ]

  const SoftSkillList: seq<string> := [
    "communication", "leadership", "teamwork", "problem solving", "analytical",
    "creative", "adaptable", "organized", "detail oriented", "time management",
    "collaboration", "critical thinking", "interpersonal", "presentation"
  ]

  /** The five achievement patterns, searched case-insensitively in this order. */
  const AchievementPatterns: seq<string> := [
    "(\\d+)%\\s+\\w+",
    "increased\\s+\\w+\\s+by\\s+(\\d+)",
    "reduced\\s+\\w+\\s+by\\s+(\\d+)",
    "managed\\s+(\\d+)\\s+\\w+",
    "led\\s+(\\d+)\\s+\\w+"
  ]

  const RequirementsPattern: string :=
    "(?i)(?:requirements?|must have|essential|mandatory):?\\s*(.+?)(?:\\n\\n|\\n[A-Z]|$)"

  const QualificationsPattern: string :=
    "(?i)(?:qualifications?|education|degree):?\\s*(.+?)(?:\\n\\n|\\n[A-Z]|$)"

  /** The character class `[•\-\*]|\n` that splits a requirements block into items. */
  const ItemSeparators: set<char> := {'•', '-', '*', '\n'}

  /** `re.findall(pattern, text)` with the flags the pattern's caller uses:
      the regular-expression engine is a parameter of the model. */
  type FindAll = (string, string) -> seq<string>

  // ---------------------------------------------------------------------------
  // Normalisation and tokenisation
  // ---------------------------------------------------------------------------

  /** `re.sub(r'[^\w\s]', ' ', ...)` on one character. */
  function Sanitize(c: char): char {
    if IsWordChar(c) || IsSpace(c) then c else ' '
  }

  function SanitizeAll(s: string): (r: string)
    ensures |r| == |s|
    ensures forall k :: 0 <= k < |s| ==> r[k] == Sanitize(s[k])
  {
    seq(|s|, k requires 0 <= k < |s| => Sanitize(s[k]))
  }

  /** `re.sub(r'\s+', ' ', s)`: every run of whitespace becomes one space. */
  function CollapseSpaces(s: string): string
    decreases |s|
  {
    if s == [] then []
    else if IsSpace(s[0]) then [' '] + CollapseSpaces(LStrip(s[1..]))
    else [s[0]] + CollapseSpaces(s[1..])
  }

  /** A character `_clean_text` may keep in a word: a lower-case `\w` character. */
  predicate LowerWordChar(c: char) {
    IsWordChar(c) && !IsUpper(c)
  }

  /** Text made of whitespace and lower-case word characters. */
  predicate SpacedLowerText(s: string) {
    forall k :: 0 <= k < |s| ==> IsSpace(s[k]) || LowerWordChar(s[k])
  }

  /** Text made of single spaces and lower-case word characters. */
  predicate LowerOrSpace(s: string) {
    forall k :: 0 <= k < |s| ==> LowerWordChar(s[k]) || s[k] == ' '
  }

  /** No two spaces in a row. */
  predicate NoDoubleSpace(s: string) {
    forall k :: 0 <= k < |s| - 1 ==> s[k] != ' ' || s[k + 1] != ' '
  }

  /** What `_clean_text` produces: lower-case word characters separated by
      single spaces, with no space at either end. */
  predicate IsCleanText(s: string) {
    && LowerOrSpace(s)
    && NoDoubleSpace(s)
    && (s == [] || (s[0] != ' ' && s[|s| - 1] != ' '))
  }

  /** `_clean_text`: lower-case, punctuation to spaces, whitespace runs to one space, strip. */
  function CleanText(text: string): string
  {
    Strip(CollapseSpaces(SanitizeAll(Lower(text))))
  }

  lemma SpacedLowerSuffix(s: string, m: nat)
    requires SpacedLowerText(s) && m <= |s|
    ensures SpacedLowerText(s[m..])
  {
    assert forall k :: 0 <= k < |s| - m ==> s[m..][k] == s[m + k];
  }

  lemma LowerOrSpaceCons(c: char, r: string)
    requires LowerOrSpace(r) && (LowerWordChar(c) || c == ' ')
    ensures LowerOrSpace([c] + r)
  {
    assert forall k :: 1 <= k <= |r| ==> ([c] + r)[k] == r[k - 1];
  }

  lemma NoDoubleSpaceCons(c: char, r: string)
    requires NoDoubleSpace(r) && (c != ' ' || r == [] || r[0] != ' ')
    ensures NoDoubleSpace([c] + r)
  {
    assert forall k :: 1 <= k <= |r| ==> ([c] + r)[k] == r[k - 1];
  }

  /** Collapsed text starts with a space exactly when the text starts with whitespace. */
  lemma CollapseHead(s: string)
    requires s != []
    ensures CollapseSpaces(s) != [] && (CollapseSpaces(s)[0] == ' ' <==> IsSpace(s[0]))
  {
    SpaceIsSpace();
  }

  /** After collapsing there are no two spaces in a row. */
  lemma {:induction false} CollapseSingleSpaces(s: string)
    ensures NoDoubleSpace(CollapseSpaces(s))
    decreases |s|
  {
    if s != [] {
      if IsSpace(s[0]) {
        var t := LStrip(s[1..]);
        CollapseSingleSpaces(t);
        if t != [] {
          CollapseHead(t);
        }
        NoDoubleSpaceCons(' ', CollapseSpaces(t));
      } else {
        CollapseSingleSpaces(s[1..]);
        SpaceIsSpace();
        NoDoubleSpaceCons(s[0], CollapseSpaces(s[1..]));
      }
    }
  }

  /** Collapsing text of whitespace and lower-case word characters leaves
      single spaces and lower-case word characters. */
  lemma {:induction false} CollapseSpacedLower(s: string)
    requires SpacedLowerText(s)
    ensures LowerOrSpace(CollapseSpaces(s))
    decreases |s|
  {
    if s != [] {
      SpacedLowerSuffix(s, 1);
      if IsSpace(s[0]) {
        var t := LStrip(s[1..]);
        LStripSuffix(s[1..]);
        SpacedLowerSuffix(s[1..], |s| - 1 - |t|);
        CollapseSpacedLower(t);
        LowerOrSpaceCons(' ', CollapseSpaces(t));
      } else {
        CollapseSpacedLower(s[1..]);
        LowerOrSpaceCons(s[0], CollapseSpaces(s[1..]));
      }
    }
  }

  /** Lower-casing and sanitising leave only whitespace and lower-case word characters. */
  lemma SanitizedChars(text: string)
    ensures SpacedLowerText(SanitizeAll(Lower(text)))
  {
  }

  /** Cleaned text is lower case, holds only word characters and single
      spaces, and has no space at either end. */
  lemma CleanTextIsClean(text: string)
    ensures IsCleanText(CleanText(text))
  {
    var x := SanitizeAll(Lower(text));
    SanitizedChars(text);
    CollapseSpacedLower(x);
    CollapseSingleSpaces(x);
    StrippedClean(CollapseSpaces(x));
  }

  /** Stripping text of single-spaced lower-case words leaves clean text. */
  lemma StrippedClean(y: string)
    requires LowerOrSpace(y) && NoDoubleSpace(y)
    ensures IsCleanText(Strip(y))
  {
    var i := StripSlice(y);
    SliceSpacedLower(y, i, i + |Strip(y)|);
    SpaceIsSpace();
  }

  /** A piece of single-spaced lower-case text is single-spaced lower-case text. */
  lemma SliceSpacedLower(y: string, i: nat, j: nat)
    requires LowerOrSpace(y) && NoDoubleSpace(y) && i <= j <= |y|
    ensures LowerOrSpace(y[i..j]) && NoDoubleSpace(y[i..j])
  {
    assert forall k :: 0 <= k < j - i ==> y[i..j][k] == y[i + k];
  }

  /** Text with no whitespace but single spaces: nothing to collapse. */
  predicate Collapsed(s: string) {
    && (forall k :: 0 <= k < |s| ==> !IsSpace(s[k]) || s[k] == ' ')
    && NoDoubleSpace(s)
  }

  lemma CollapsedTail(s: string)
    requires Collapsed(s) && s != []
    ensures Collapsed(s[1..])
    ensures IsSpace(s[0]) ==> s[0] == ' ' && (|s| == 1 || !IsSpace(s[1]))
  {
    assert forall k :: 0 <= k < |s| - 1 ==> s[1..][k] == s[k + 1];
  }

  /** Collapsing text that has nothing to collapse changes nothing. */
  lemma {:induction false} CollapseNoop(s: string)
    requires Collapsed(s)
    ensures CollapseSpaces(s) == s
    decreases |s|
  {
    if s != [] {
      CollapsedTail(s);
      CollapseNoop(s[1..]);
      if IsSpace(s[0]) {
        LStripNoop(s[1..]);
      }
      assert s == [s[0]] + s[1..];
    }
  }

  /** Clean text is a fixed point of `_clean_text`. */
  lemma CleanTextFixpoint(s: string)
    requires IsCleanText(s)
    ensures CleanText(s) == s
  {
    LowerOfNoUpper(s);
    forall k | 0 <= k < |s| && s[k] != ' ' ensures !IsSpace(s[k]) {
      WordCharNotSpace(s[k]);
    }
    assert SanitizeAll(s) == s;
    CollapseNoop(s);
    StripNoop(s);
  }

  /** Cleaning is idempotent. */
  lemma CleanTextIdempotent(text: string)
    ensures CleanText(CleanText(text)) == CleanText(text)
  {
    CleanTextIsClean(text);
    CleanTextFixpoint(CleanText(text));
  }

  /** The filter of `_tokenize_and_filter`. */
  predicate Keep(token: string, stopWords: set<string>) {
    token !in stopWords && |token| > 2 && !AllDigits(token)
  }

  /** `[t for t in tokens if keep(t)]` */
  function FilterTokens(tokens: seq<string>, stopWords: set<string>): (kept: seq<string>)
    ensures |kept| <= |tokens|
    ensures forall t :: t in kept <==> t in tokens && Keep(t, stopWords)
  {
    if tokens == [] then []
    else (if Keep(tokens[0], stopWords) then [tokens[0]] else []) + FilterTokens(tokens[1..], stopWords)
  }

  /** Filtering keeps the relative order of the tokens. */
  lemma {:induction false} FilterTokensAppend(a: seq<string>, b: seq<string>, stopWords: set<string>)
    ensures FilterTokens(a + b, stopWords) == FilterTokens(a, stopWords) + FilterTokens(b, stopWords)
  {
    if a == [] {
      assert a + b == b;
    } else {
      assert (a + b)[0] == a[0];
      assert (a + b)[1..] == a[1..] + b;
      FilterTokensAppend(a[1..], b, stopWords);
    }
  }

  /** `_tokenize_and_filter`: whitespace tokens of the cleaned text that are
      not stopwords, longer than two characters and not all digits. */
  function TokenizeAndFilter(cleaned: string, stopWords: set<string>): seq<string>
  {
    FilterTokens(Words(cleaned), stopWords)
  }

  /** Every word of the list is made of lower-case word characters. */
  predicate LowerWordsOnly(ws: seq<string>) {
    forall i, k :: 0 <= i < |ws| && 0 <= k < |ws[i]| ==> LowerWordChar(ws[i][k])
  }

  lemma LowerWordsConcat(a: seq<string>, b: seq<string>)
    requires LowerWordsOnly(a) && LowerWordsOnly(b)
    ensures LowerWordsOnly(a + b)
  {
    forall i, k | 0 <= i < |a + b| && 0 <= k < |(a + b)[i]|
      ensures LowerWordChar((a + b)[i][k])
    {
      if i < |a| {
        assert (a + b)[i] == a[i];
      } else {
        assert (a + b)[i] == b[i - |a|];
      }
    }
  }

  /** The leading word of such text is made of lower-case word characters. */
  lemma LeadingLowerWord(t: string)
    requires SpacedLowerText(t) && t != [] && !IsSpace(t[0])
    ensures LowerWordsOnly([t[..SpanNonSpace(t)]])
  {
    var w := t[..SpanNonSpace(t)];
    forall k | 0 <= k < |w| ensures LowerWordChar(w[k]) {
      assert w[k] == t[k];
    }
  }

  /** The words of text made of whitespace and lower-case word characters
      are made of lower-case word characters. */
  lemma {:induction false} WordsOfLowerText(s: string)
    requires SpacedLowerText(s)
    ensures LowerWordsOnly(Words(s))
    decreases |s|
  {
    var t := LStrip(s);
    LStripSuffix(s);
    if t != [] {
      SpacedLowerSuffix(s, |s| - |t|);
      var n := SpanNonSpace(t);
      SpacedLowerSuffix(t, n);
      WordsOfLowerText(t[n..]);
      LeadingLowerWord(t);
      LowerWordsConcat([t[..n]], Words(t[n..]));
    }
  }

  /** A keyword: kept by the filter and made of lower-case word characters only. */
  predicate IsKeyword(w: string, stopWords: set<string>) {
    Keep(w, stopWords) && forall k :: 0 <= k < |w| ==> LowerWordChar(w[k])
  }

  /** Every token kept from clean text is a stopword-free, lower-case word of
      at least three characters, not all digits. */
  lemma TokensOfClean(c: string, stopWords: set<string>)
    requires IsCleanText(c)
    ensures forall t :: t in TokenizeAndFilter(c, stopWords) ==> IsKeyword(t, stopWords)
  {
    SpaceIsSpace();
    assert SpacedLowerText(c);
    WordsOfLowerText(c);
    var ws := Words(c);
    forall t | t in TokenizeAndFilter(c, stopWords)
      ensures IsKeyword(t, stopWords)
    {
      var i :| 0 <= i < |ws| && ws[i] == t;
    }
  }

  /** The tokens of any text, once cleaned, are stopword-free lower-case
      words of at least three characters, not all digits. */
  lemma TokensOfCleanText(text: string, stopWords: set<string>)
    ensures forall t :: t in TokenizeAndFilter(CleanText(text), stopWords) ==> IsKeyword(t, stopWords)
  {
    CleanTextIsClean(text);
    TokensOfClean(CleanText(text), stopWords);
  }

  // ---------------------------------------------------------------------------
  // Frequency ranking
  // ---------------------------------------------------------------------------

  /** Number of occurrences of `w` in `s`. */
  function Count(s: seq<string>, w: string): (n: nat)
    ensures n <= |s|
    ensures n > 0 <==> w in s
  {
    if s == [] then 0
    else
      assert s == s[..|s| - 1] + [s[|s| - 1]];
      Count(s[..|s| - 1], w) + (if s[|s| - 1] == w then 1 else 0)
  }

  /** Index of the first occurrence of `w` in `s`. */
  function FirstIndex(s: seq<string>, w: string): (i: nat)
    requires w in s
    ensures i < |s| && s[i] == w
  {
    if s[0] == w then 0 else 1 + FirstIndex(s[1..], w)
  }

  /** An occurrence with no earlier occurrence is the first one. */
  lemma {:induction false} FirstIndexOf(s: seq<string>, w: string, i: nat)
    requires i < |s| && s[i] == w
    requires forall k :: 0 <= k < i ==> s[k] != w
    ensures FirstIndex(s, w) == i
  {
    if i > 0 {
      assert s[1..][i - 1] == w;
      FirstIndexOf(s[1..], w, i - 1);
    }
  }

  /** `x` precedes `y` in `Counter(tokens).most_common()`: it is more frequent,
      or as frequent and seen first (the ranking is a stable sort). */
  predicate RanksBefore(tokens: seq<string>, x: string, y: string) {
    && x in tokens && y in tokens
    && (|| Count(tokens, x) > Count(tokens, y)
        || (Count(tokens, x) == Count(tokens, y) && FirstIndex(tokens, x) < FirstIndex(tokens, y)))
  }

  /** `Counter(s)` as a dictionary: token to number of occurrences. */
  function Tally(s: seq<string>): (m: map<string, nat>)
    ensures forall w :: w in m <==> w in s
  {
    if s == [] then map[]
    else
      var m := Tally(s[..|s| - 1]);
      var w := s[|s| - 1];
      assert s == s[..|s| - 1] + [w];
      m[w := if w in m then m[w] + 1 else 1]
  }

  /** The dictionary holds each token's number of occurrences. */
  lemma {:induction false} TallyCounts(s: seq<string>)
    ensures forall w :: w in Tally(s) ==> Tally(s)[w] == Count(s, w)
  {
    if s != [] {
      TallyCounts(s[..|s| - 1]);
    }
  }

  /** The distinct tokens of `s` in order of first occurrence: the key order
      of `Counter(s)`. */
  function Distinct(s: seq<string>): (d: seq<string>)
    ensures forall w :: w in d <==> w in s
  {
    if s == [] then []
    else
      var d := Distinct(s[..|s| - 1]);
      var w := s[|s| - 1];
      assert s == s[..|s| - 1] + [w];
      if w in s[..|s| - 1] then d else d + [w]
  }

  /** The first index of a token of a prefix is its first index in the whole. */
  lemma {:induction false} FirstIndexPrefix(s: seq<string>, n: nat, w: string)
    requires n <= |s| && w in s[..n]
    ensures FirstIndex(s, w) == FirstIndex(s[..n], w)
  {
    if s[0] != w {
      assert s[..n][1..] == s[1..][..n - 1];
      FirstIndexPrefix(s[1..], n - 1, w);
    }
  }

  /** A token not seen before position `i` first occurs at `i`. */
  lemma FirstIndexAt(s: seq<string>, i: nat)
    requires i < |s| && s[i] !in s[..i]
    ensures FirstIndex(s, s[i]) == i
  {
    forall k | 0 <= k < i ensures s[k] != s[i] {
      assert s[k] == s[..i][k];
    }
    FirstIndexOf(s, s[i], i);
  }

  /** The tokens of `d` occur in `s`, in order of first occurrence. */
  predicate InFirstOccurrenceOrder(s: seq<string>, d: seq<string>) {
    forall a, b :: 0 <= a < b < |d| ==> d[a] in s && d[b] in s && FirstIndex(s, d[a]) < FirstIndex(s, d[b])
  }

  /** The distinct tokens come in order of first occurrence. */
  lemma {:induction false} DistinctInOrder(s: seq<string>)
    ensures InFirstOccurrenceOrder(s, Distinct(s))
  {
    if s != [] {
      var n := |s| - 1;
      var p := s[..n];
      var d := Distinct(p);
      DistinctInOrder(p);
      assert s[..n] == p;
      forall a | 0 <= a < |d|
        ensures d[a] in p && d[a] in s && FirstIndex(s, d[a]) == FirstIndex(p, d[a])
      {
        assert d[a] in d;
        var k :| 0 <= k < n && p[k] == d[a];
        assert s[k] == d[a];
        FirstIndexPrefix(s, n, d[a]);
      }
      if s[n] in p {
        assert Distinct(s) == d;
      } else {
        assert Distinct(s) == d + [s[n]];
        FirstIndexAt(s, n);
        forall a | 0 <= a < |d| ensures FirstIndex(s, d[a]) < n {
          assert FirstIndex(p, d[a]) < |p|;
        }
      }
    }
  }

  /** How one more token changes the tally and the first-occurrence order. */
  lemma CountStep(tokens: seq<string>, i: nat)
    requires i < |tokens|
    ensures Tally(tokens[..i + 1]) == Tally(tokens[..i])[tokens[i] := if tokens[i] in Tally(tokens[..i]) then Tally(tokens[..i])[tokens[i]] + 1 else 1]
    ensures Distinct(tokens[..i + 1]) == if tokens[i] in Tally(tokens[..i]) then Distinct(tokens[..i]) else Distinct(tokens[..i]) + [tokens[i]]
  {
    assert tokens[..i + 1][..i] == tokens[..i];
  }

  /** One step of the counting loop: bump the count of the `i`-th token, and
      record it in the order the first time it is seen. */
  method CountOne(counts: map<string, nat>, order: seq<string>, tokens: seq<string>, i: nat)
    returns (counts': map<string, nat>, order': seq<string>)
    requires i < |tokens| && counts == Tally(tokens[..i]) && order == Distinct(tokens[..i])
    ensures counts' == Tally(tokens[..i + 1]) && order' == Distinct(tokens[..i + 1])
  {
    CountStep(tokens, i);
    var w := tokens[i];
    if w in counts {
      counts', order' := counts[w := counts[w] + 1], order;
    } else {
      counts', order' := counts[w := 1], order + [w];
    }
  }

  /** `Counter(tokens)`: the count of every distinct token, and the distinct
      tokens in order of first occurrence (the dictionary's insertion order). */
  method CountTokens(tokens: seq<string>) returns (counts: map<string, nat>, order: seq<string>)
    ensures counts == Tally(tokens)
    ensures order == Distinct(tokens)
  {
    counts := map[];
    order := [];
    var i := 0;
    while i < |tokens|
      invariant 0 <= i <= |tokens|
      invariant counts == Tally(tokens[..i])
      invariant order == Distinct(tokens[..i])
    {
      counts, order := CountOne(counts, order, tokens, i);
      i := i + 1;
    }
    assert tokens[..|tokens|] == tokens;
  }

  /** The first position whose token is less frequent than `w`. */
  method InsertionPoint(tokens: seq<string>, counts: map<string, nat>, ranked: seq<string>, w: string) returns (p: nat)
    requires forall x :: x in counts ==> counts[x] == Count(tokens, x)
    requires forall x :: x in ranked ==> x in counts
    requires w in counts
    ensures p <= |ranked|
    ensures forall a :: 0 <= a < p ==> Count(tokens, ranked[a]) >= Count(tokens, w)
    ensures p < |ranked| ==> Count(tokens, ranked[p]) < Count(tokens, w)
  {
    p := 0;
    while p < |ranked| && counts[ranked[p]] >= counts[w]
      invariant 0 <= p <= |ranked|
      invariant forall a :: 0 <= a < p ==> Count(tokens, ranked[a]) >= Count(tokens, w)
    {
      p := p + 1;
    }
  }

  /** `most_common()`: the distinct tokens sorted by descending count, stably,
      by inserting each after the tokens at least as frequent. */
  method RankByCount(tokens: seq<string>, counts: map<string, nat>, order: seq<string>) returns (ranked: seq<string>)
    requires forall w :: w in counts <==> w in tokens
    requires forall w :: w in counts ==> counts[w] == Count(tokens, w)
    requires forall w :: w in order <==> w in tokens
    requires InFirstOccurrenceOrder(tokens, order)
    ensures forall w :: w in ranked <==> w in tokens
    ensures forall a, b :: 0 <= a < b < |ranked| ==> RanksBefore(tokens, ranked[a], ranked[b])
  {
    ranked := [];
    var j := 0;
    while j < |order|
      invariant 0 <= j <= |order|
      invariant forall w :: w in ranked <==> w in order[..j]
      invariant forall w :: w in ranked ==> w in counts
      invariant forall a, b :: 0 <= a < b < |ranked| ==> RanksBefore(tokens, ranked[a], ranked[b])
    {
      var w := order[j];
      assert w in tokens;
      var p := InsertionPoint(tokens, counts, ranked, w);
      InsertRanked(tokens, order, j, ranked, p);
      ranked := ranked[..p] + [w] + ranked[p..];
      j := j + 1;
    }
    assert order[..|order|] == order;
  }

  /** `top` is what `Counter(tokens).most_common(topN)` returns: at most
      `topN` distinct tokens in ranking order, and every token left out ranks
      after all of them, which happens only once `topN` tokens are taken. */
  predicate TopRanked(top: seq<string>, tokens: seq<string>, topN: int) {
    && (topN <= 0 ==> top == [])
    && |top| <= (if topN < 0 then 0 else topN)
    && (forall w :: w in top ==> w in tokens)
    && (forall i, j :: 0 <= i < j < |top| ==> RanksBefore(tokens, top[i], top[j]))
    && (forall w :: w in tokens && w !in top ==>
          |top| == (if topN < 0 then 0 else topN) && forall x :: x in top ==> RanksBefore(tokens, x, w))
  }

  /** `_get_top_keywords`: the `topN` most frequent distinct tokens, most
      frequent first, ties in order of first occurrence; nothing for `topN <= 0`. */
  method TopKeywords(tokens: seq<string>, topN: int) returns (top: seq<string>)
    ensures TopRanked(top, tokens, topN)
    ensures forall i, j :: 0 <= i < j < |top| ==> top[i] != top[j]
  {
    var counts, order := CountTokens(tokens);
    TallyCounts(tokens);
    DistinctInOrder(tokens);
    var ranked := RankByCount(tokens, counts, order);
    if topN <= 0 {
      top := [];
      assert forall w :: w in tokens ==> w in ranked;
    } else if topN < |ranked| {
      top := ranked[..topN];
      forall w | w in tokens && w !in top
        ensures forall x :: x in top ==> RanksBefore(tokens, x, w)
      {
        var k :| 0 <= k < |ranked| && ranked[k] == w;
        assert k >= topN;
      }
    } else {
      top := ranked;
    }
  }

  /** The tokens already ranked were all seen before the next one. */
  lemma SeenEarlier(tokens: seq<string>, order: seq<string>, j: nat, ranked: seq<string>)
    requires j < |order|
    requires forall w :: w in ranked <==> w in order[..j]
    requires forall w :: w in order ==> w in tokens
    requires forall w :: w in ranked ==> w in tokens
    requires InFirstOccurrenceOrder(tokens, order)
    ensures forall a :: 0 <= a < |ranked| ==> FirstIndex(tokens, ranked[a]) < FirstIndex(tokens, order[j])
  {
    forall a | 0 <= a < |ranked|
      ensures FirstIndex(tokens, ranked[a]) < FirstIndex(tokens, order[j])
    {
      assert ranked[a] in order[..j];
      var b :| 0 <= b < j && order[..j][b] == ranked[a];
      assert order[b] == ranked[a];
    }
  }

  /** Inserting the next distinct token after every token at least as frequent
      keeps the list in ranking order. */
  lemma InsertRanked(tokens: seq<string>, order: seq<string>, j: nat, ranked: seq<string>, p: nat)
    requires j < |order| && p <= |ranked|
    requires order[j] in tokens
    requires forall w :: w in ranked <==> w in order[..j]
    requires forall w :: w in order ==> w in tokens
    requires forall w :: w in ranked ==> w in tokens
    requires InFirstOccurrenceOrder(tokens, order)
    requires forall a, b :: 0 <= a < b < |ranked| ==> RanksBefore(tokens, ranked[a], ranked[b])
    requires forall a :: 0 <= a < p ==> Count(tokens, ranked[a]) >= Count(tokens, order[j])
    requires p < |ranked| ==> Count(tokens, ranked[p]) < Count(tokens, order[j])
    ensures var r := ranked[..p] + [order[j]] + ranked[p..];
      forall a, b :: 0 <= a < b < |r| ==> RanksBefore(tokens, r[a], r[b])
    ensures var r := ranked[..p] + [order[j]] + ranked[p..];
      forall x :: x in r <==> x in order[..j + 1]
  {
    var w := order[j];
    assert ranked == ranked[..p] + ranked[p..];
    assert order[..j + 1] == order[..j] + [w];
    SeenEarlier(tokens, order, j, ranked);
    assert forall a :: 0 <= a < p ==> RanksBefore(tokens, ranked[a], w);
    forall a | p <= a < |ranked| ensures RanksBefore(tokens, w, ranked[a]) {
      if a > p {
        assert RanksBefore(tokens, ranked[p], ranked[a]);
      }
    }
    InsertSorted(tokens, ranked, p, w);
  }

  /** A sorted list with `w` inserted where everything before ranks before it
      and it ranks before everything after is still sorted. */
  lemma InsertSorted(tokens: seq<string>, ranked: seq<string>, p: nat, w: string)
    requires p <= |ranked|
    requires forall a, b :: 0 <= a < b < |ranked| ==> RanksBefore(tokens, ranked[a], ranked[b])
    requires forall a :: 0 <= a < p ==> RanksBefore(tokens, ranked[a], w)
    requires forall a :: p <= a < |ranked| ==> RanksBefore(tokens, w, ranked[a])
    ensures var r := ranked[..p] + [w] + ranked[p..];
      forall a, b :: 0 <= a < b < |r| ==> RanksBefore(tokens, r[a], r[b])
  {
    var r := ranked[..p] + [w] + ranked[p..];
    assert forall a :: 0 <= a < p ==> r[a] == ranked[a];
    assert r[p] == w;
    assert forall a :: p < a < |r| ==> r[a] == ranked[a - 1];
  }

  // ---------------------------------------------------------------------------
  // Phrase matching
  // ---------------------------------------------------------------------------

  /** The phrases of the list that occur in `hay`, in list order. */
  function PhrasesIn(phrases: seq<string>, hay: string): (found: seq<string>)
    ensures |found| <= |phrases|
    ensures forall p :: p in found <==> p in phrases && Contains(hay, p)
  {
    if phrases == [] then []
    else
      var last := phrases[|phrases| - 1];
      assert phrases == phrases[..|phrases| - 1] + [last];
      PhrasesIn(phrases[..|phrases| - 1], hay) + (if Contains(hay, last) then [last] else [])
  }

  /** The loop shared by the `_extract_*` methods: append every phrase found. */
  method CollectPhrases(phrases: seq<string>, hay: string) returns (found: seq<string>)
    ensures found == PhrasesIn(phrases, hay)
  {
    found := [];
    var i := 0;
    while i < |phrases|
      invariant 0 <= i <= |phrases|
      invariant found == PhrasesIn(phrases[..i], hay)
    {
      assert phrases[..i + 1][..i] == phrases[..i];
      if Contains(hay, phrases[i]) {
        found := found + [phrases[i]];
      }
      i := i + 1;
    }
    assert phrases[..|phrases|] == phrases;
  }

  /** `_extract_technical_skills`: the taxonomy entries that are substrings of
      the lower-cased text, as a set. */
  method ExtractTechnicalSkills(text: string) returns (skills: set<string>)
    ensures forall s :: s in skills <==> s in TechnicalSkillList && Contains(Lower(text), s)
  {
    var found := CollectPhrases(TechnicalSkillList, Lower(text));
    skills := set s | s in found;
  }

  /** `_extract_soft_skills`: the soft skills found, in list order. */
  method ExtractSoftSkills(text: string) returns (found: seq<string>)
    ensures forall s :: s in found <==> s in SoftSkillList && Contains(Lower(text), s)
    ensures found == PhrasesIn(SoftSkillList, Lower(text))
  {
    found := CollectPhrases(SoftSkillList, Lower(text));
  }

  /** `_extract_action_verbs`: the action verbs found, in list order. */
  method ExtractActionVerbs(cvText: string) returns (found: seq<string>)
    ensures forall v :: v in found <==> v in ActionVerbList && Contains(Lower(cvText), v)
    ensures found == PhrasesIn(ActionVerbList, Lower(cvText))
  {
    found := CollectPhrases(ActionVerbList, Lower(cvText));
  }

  // ---------------------------------------------------------------------------
  // Pattern-based extraction
  // ---------------------------------------------------------------------------

  /** The matches of every pattern, pattern by pattern. */
  function AllMatches(patterns: seq<string>, text: string, findAll: FindAll): seq<string>
  {
    if patterns == [] then []
    else AllMatches(patterns[..|patterns| - 1], text, findAll) + findAll(patterns[|patterns| - 1], text)
  }

  function Take<T>(s: seq<T>, n: nat): (r: seq<T>)
    ensures |r| <= n && |r| <= |s|
    ensures |r| == n || r == s
    ensures r == s[..|r|]
  {
    if |s| <= n then s else s[..n]
  }

  /** `_extract_achievements`: the matches of the five patterns in order, at most ten. */
  method ExtractAchievements(cvText: string, findAll: FindAll) returns (achievements: seq<string>)
    ensures |achievements| <= 10
    ensures achievements == Take(AllMatches(AchievementPatterns, cvText, findAll), 10)
  {
    var all: seq<string> := [];
    var i := 0;
    while i < |AchievementPatterns|
      invariant 0 <= i <= |AchievementPatterns|
      invariant all == AllMatches(AchievementPatterns[..i], cvText, findAll)
    {
      assert AchievementPatterns[..i + 1][..i] == AchievementPatterns[..i];
      all := all + findAll(AchievementPatterns[i], cvText);
      i := i + 1;
    }
    assert AchievementPatterns[..|AchievementPatterns|] == AchievementPatterns;
    achievements := Take(all, 10);
  }

  /** Every item is stripped and longer than `minLen`. */
  predicate LongStripped(items: seq<string>, minLen: nat) {
    forall i :: 0 <= i < |items| ==> |items[i]| > minLen && IsStripped(items[i])
  }

  lemma LongStrippedConcat(a: seq<string>, b: seq<string>, minLen: nat)
    requires LongStripped(a, minLen) && LongStripped(b, minLen)
    ensures LongStripped(a + b, minLen)
  {
    assert forall i :: |a| <= i < |a + b| ==> (a + b)[i] == b[i - |a|];
  }

  lemma LongStrippedSnoc(a: seq<string>, x: string, minLen: nat)
    requires LongStripped(a, minLen) && |x| > minLen && IsStripped(x)
    ensures LongStripped(a + [x], minLen)
  {
  }

  /** One step of the inner loop: the item, stripped, if it is longer than `minLen`. */
  function Kept(item: string, minLen: nat): seq<string>
  {
    if |Strip(item)| > minLen then [Strip(item)] else []
  }

  /** The stripped items among the first `n` of one block that are longer than `minLen`. */
  function LongItems(items: seq<string>, n: nat, minLen: nat): seq<string>
    requires n <= |items|
  {
    if n == 0 then [] else LongItems(items, n - 1, minLen) + Kept(items[n - 1], minLen)
  }

  /** The long items of every matched block, block by block, each block split
      at the characters of `seps`. */
  function BlockItems(blocks: seq<string>, seps: set<char>, minLen: nat): seq<string>
  {
    if blocks == [] then []
    else
      BlockItems(blocks[..|blocks| - 1], seps, minLen)
        + var last := SplitAny(blocks[|blocks| - 1], seps); LongItems(last, |last|, minLen)
  }

  lemma KeptShape(item: string, minLen: nat)
    ensures LongStripped(Kept(item, minLen), minLen)
  {
  }

  /** What one block contributes is stripped and long enough. */
  lemma {:induction false} LongItemsShape(items: seq<string>, n: nat, minLen: nat)
    requires n <= |items|
    ensures LongStripped(LongItems(items, n, minLen), minLen)
  {
    if n > 0 {
      LongItemsShape(items, n - 1, minLen);
      KeptShape(items[n - 1], minLen);
      LongStrippedConcat(LongItems(items, n - 1, minLen), Kept(items[n - 1], minLen), minLen);
    }
  }

  /** Every collected item is stripped and long enough. */
  lemma {:induction false} BlockItemsShape(blocks: seq<string>, seps: set<char>, minLen: nat)
    ensures LongStripped(BlockItems(blocks, seps, minLen), minLen)
  {
    if blocks != [] {
      BlockItemsShape(blocks[..|blocks| - 1], seps, minLen);
      var last := SplitAny(blocks[|blocks| - 1], seps);
      LongItemsShape(last, |last|, minLen);
      LongStrippedConcat(BlockItems(blocks[..|blocks| - 1], seps, minLen), LongItems(last, |last|, minLen), minLen);
    }
  }

  lemma LongItemsNext(parts: seq<string>, k: nat, minLen: nat)
    requires k < |parts|
    ensures LongItems(parts, k + 1, minLen) == LongItems(parts, k, minLen) + Kept(parts[k], minLen)
  {
  }

  /** The inner loop over one block's items: strip each, keep the long ones. */
  method KeepLongItems(parts: seq<string>, minLen: nat) returns (kept: seq<string>)
    ensures kept == LongItems(parts, |parts|, minLen)
  {
    kept := [];
    var k := 0;
    while k < |parts|
      invariant 0 <= k <= |parts|
      invariant kept == LongItems(parts, k, minLen)
    {
      LongItemsNext(parts, k, minLen);
      kept := kept + Kept(parts[k], minLen);
      k := k + 1;
    }
  }

  /** The nested loop of `_extract_requirements` and `_extract_qualifications`:
      split each block into items, strip them, keep the long ones, cap the list. */
  method CollectItems(blocks: seq<string>, seps: set<char>, minLen: nat, cap: nat) returns (items: seq<string>)
    ensures |items| <= cap
    ensures LongStripped(items, minLen)
    ensures items == Take(BlockItems(blocks, seps, minLen), cap)
  {
    var all: seq<string> := [];
    var i := 0;
    while i < |blocks|
      invariant 0 <= i <= |blocks|
      invariant all == BlockItems(blocks[..i], seps, minLen)
    {
      var kept := KeepLongItems(SplitAny(blocks[i], seps), minLen);
      assert blocks[..i + 1][..i] == blocks[..i];
      all := all + kept;
      i := i + 1;
    }
    assert blocks[..|blocks|] == blocks;
    BlockItemsShape(blocks, seps, minLen);
    items := Take(all, cap);
  }

  /** `_extract_requirements`: at most ten items, each stripped and longer than ten characters. */
  method ExtractRequirements(jobDescription: string, findAll: FindAll) returns (requirements: seq<string>)
    ensures |requirements| <= 10
    ensures LongStripped(requirements, 10)
    ensures requirements == Take(BlockItems(findAll(RequirementsPattern, jobDescription), ItemSeparators, 10), 10)
  {
    requirements := CollectItems(findAll(RequirementsPattern, jobDescription), ItemSeparators, 10, 10);
  }

  /** `_extract_qualifications`: at most five items, each stripped and longer than five characters. */
  method ExtractQualifications(jobDescription: string, findAll: FindAll) returns (qualifications: seq<string>)
    ensures |qualifications| <= 5
    ensures LongStripped(qualifications, 5)
    ensures qualifications == Take(BlockItems(findAll(QualificationsPattern, jobDescription), ItemSeparators, 5), 5)
  {
    qualifications := CollectItems(findAll(QualificationsPattern, jobDescription), ItemSeparators, 5, 5);
  }

  // ---------------------------------------------------------------------------
  // Keyword records and their comparison
  // ---------------------------------------------------------------------------

  /** The result of `extract_keywords_from_cv`. */
  datatype CvKeywords = CvKeywords(
    allKeywords: seq<string>,
    technicalSkills: set<string>,
    actionVerbs: seq<string>,
    achievements: seq<string>)

  /** The result of `extract_keywords_from_job_description`. */
  datatype JobKeywords = JobKeywords(
    allKeywords: seq<string>,
    technicalSkills: set<string>,
    requirements: seq<string>,
    qualifications: seq<string>,
    softSkills: seq<string>)

  /** The `keyword_density` record. */
  datatype Density = Density(cvKeywordCount: nat, jobKeywordCount: nat, densityRatio: real)

  /** The result of `compare_keywords`; the matched and missing lists are sets,
      since the source builds them from sets and their order is unspecified. */
  datatype Comparison = Comparison(
    matchedKeywords: set<string>,
    missingKeywords: set<string>,
    matchedTechnical: set<string>,
    missingTechnical: set<string>,
    matchPercentage: real,
    keywordDensity: Density)

  /** The lower-cased keywords of a list, as a set. */
  function LowerSet(keywords: seq<string>): set<string> {
    set w | w in keywords :: Lower(w)
  }

  /** The lower-cased keywords of a set. */
  function LowerEach(keywords: set<string>): set<string> {
    set w | w in keywords :: Lower(w)
  }

  /** A sub-collection of a finite set is no larger, and only as large when it is the whole. */
  lemma {:induction false} SubsetCard<T>(a: set<T>, b: set<T>)
    requires a <= b
    ensures |a| <= |b|
    ensures |a| == |b| ==> a == b
    decreases b
  {
    if b != {} {
      var x :| x in b;
      SubsetCard(a - {x}, b - {x});
      if x in a {
        assert a == (a - {x}) + {x};
      } else {
        assert a - {x} == a;
      }
    }
  }

  /** `part / whole * 100`, or 0 for an empty whole. */
  function Percentage(part: nat, whole: nat): (p: real)
    ensures whole == 0 ==> p == 0.0
    ensures whole > 0 ==> p * (whole as real) == (part as real) * 100.0
  {
    if whole > 0 then (part as real) / (whole as real) * 100.0 else 0.0
  }

  /** A share of a whole lies in [0, 100] and is 100 exactly when the part is the whole. */
  lemma PercentageRange(part: nat, whole: nat)
    requires part <= whole
    ensures 0.0 <= Percentage(part, whole) <= 100.0
    ensures Percentage(part, whole) == 100.0 <==> whole > 0 && part == whole
    ensures Percentage(part, whole) == 0.0 <==> part == 0
  {
    if whole > 0 {
      var p := Percentage(part, whole);
      assert p * (whole as real) == (part as real) * 100.0;
      assert (part as real) * 100.0 <= (whole as real) * 100.0;
      if p == 100.0 {
        assert (part as real) == (whole as real);
      }
    }
  }

  /** `_calculate_keyword_density`: the two keyword counts and their ratio, 0 without job keywords. */
  function KeywordDensity(cv: CvKeywords, job: JobKeywords): (d: Density)
    ensures d.cvKeywordCount == |cv.allKeywords| && d.jobKeywordCount == |job.allKeywords|
    ensures d.jobKeywordCount == 0 ==> d.densityRatio == 0.0
    ensures d.jobKeywordCount > 0 ==> d.densityRatio * (d.jobKeywordCount as real) == d.cvKeywordCount as real
    ensures d.densityRatio >= 0.0
  {
    var cvTotal := |cv.allKeywords|;
    var jobTotal := |job.allKeywords|;
    Density(cvTotal, jobTotal, if jobTotal > 0 then (cvTotal as real) / (jobTotal as real) else 0.0)
  }

  /** `compare_keywords`: the lower-cased job keywords split into those the CV
      has and those it lacks, the same for technical skills, and the share matched. */
  function CompareKeywords(cv: CvKeywords, job: JobKeywords): (r: Comparison)
    ensures r.matchedKeywords !! r.missingKeywords
    ensures r.matchedKeywords + r.missingKeywords == LowerSet(job.allKeywords)
    ensures r.matchedKeywords <= LowerSet(cv.allKeywords) && r.missingKeywords !! LowerSet(cv.allKeywords)
    ensures r.matchedTechnical !! r.missingTechnical
    ensures r.matchedTechnical + r.missingTechnical == LowerEach(job.technicalSkills)
    ensures r.matchedTechnical <= LowerEach(cv.technicalSkills) && r.missingTechnical !! LowerEach(cv.technicalSkills)
    ensures r.keywordDensity == KeywordDensity(cv, job)
  {
    var cvAll := LowerSet(cv.allKeywords);
    var jobAll := LowerSet(job.allKeywords);
    var cvTech := LowerEach(cv.technicalSkills);
    var jobTech := LowerEach(job.technicalSkills);
    var matched := cvAll * jobAll;
    Comparison(
      matched,
      jobAll - cvAll,
      cvTech * jobTech,
      jobTech - cvTech,
      Percentage(|matched|, |jobAll|),
      KeywordDensity(cv, job))
  }

  /** The match percentage lies in [0, 100]; it is 0 when the job has no
      keywords or none is matched, and 100 exactly when the CV has every job keyword. */
  lemma MatchPercentageRange(cv: CvKeywords, job: JobKeywords)
    ensures var r := CompareKeywords(cv, job);
      && 0.0 <= r.matchPercentage <= 100.0
      && (job.allKeywords == [] ==> r.matchPercentage == 0.0)
      && (r.matchPercentage == 0.0 <==> r.matchedKeywords == {})
      && (r.matchPercentage == 100.0 <==> job.allKeywords != [] && LowerSet(job.allKeywords) <= LowerSet(cv.allKeywords))
  {
    var r := CompareKeywords(cv, job);
    var jobAll := LowerSet(job.allKeywords);
    SubsetCard(r.matchedKeywords, jobAll);
    PercentageRange(|r.matchedKeywords|, |jobAll|);
    if job.allKeywords != [] {
      assert Lower(job.allKeywords[0]) in jobAll;
    }
    if jobAll <= LowerSet(cv.allKeywords) {
      assert r.matchedKeywords == jobAll;
    }
  }

  // ---------------------------------------------------------------------------
  // Extraction entry points
  // ---------------------------------------------------------------------------

  /** `extract_keywords_from_job_description`; `stopWords` is the English stopword list. */
  method ExtractKeywordsFromJobDescription(jobDescription: string, topN: int, stopWords: set<string>, findAll: FindAll)
    returns (keywords: JobKeywords)
    ensures TopRanked(keywords.allKeywords, TokenizeAndFilter(CleanText(jobDescription), stopWords), topN)
    ensures forall i, j :: 0 <= i < j < |keywords.allKeywords| ==> keywords.allKeywords[i] != keywords.allKeywords[j]
    ensures forall w :: w in keywords.allKeywords ==> IsKeyword(w, stopWords)
    ensures forall s :: s in keywords.technicalSkills <==> s in TechnicalSkillList && Contains(Lower(jobDescription), s)
    ensures |keywords.requirements| <= 10 && LongStripped(keywords.requirements, 10)
    ensures keywords.requirements ==
      Take(BlockItems(findAll(RequirementsPattern, jobDescription), ItemSeparators, 10), 10)
    ensures |keywords.qualifications| <= 5 && LongStripped(keywords.qualifications, 5)
    ensures keywords.qualifications ==
      Take(BlockItems(findAll(QualificationsPattern, jobDescription), ItemSeparators, 5), 5)
    ensures keywords.softSkills == PhrasesIn(SoftSkillList, Lower(jobDescription))
  {
    var tokens := TokenizeAndFilter(CleanText(jobDescription), stopWords);
    TokensOfCleanText(jobDescription, stopWords);
    var top := TopKeywords(tokens, topN);
    var technical := ExtractTechnicalSkills(jobDescription);
    var requirements := ExtractRequirements(jobDescription, findAll);
    var qualifications := ExtractQualifications(jobDescription, findAll);
    var softSkills := ExtractSoftSkills(jobDescription);
    keywords := JobKeywords(top, technical, requirements, qualifications, softSkills);
  }

  /** `extract_keywords_from_cv`; `stopWords` is the English stopword list. */
  method ExtractKeywordsFromCv(cvText: string, topN: int, stopWords: set<string>, findAll: FindAll)
    returns (keywords: CvKeywords)
    ensures TopRanked(keywords.allKeywords, TokenizeAndFilter(CleanText(cvText), stopWords), topN)
    ensures forall i, j :: 0 <= i < j < |keywords.allKeywords| ==> keywords.allKeywords[i] != keywords.allKeywords[j]
    ensures forall w :: w in keywords.allKeywords ==> IsKeyword(w, stopWords)
    ensures forall s :: s in keywords.technicalSkills <==> s in TechnicalSkillList && Contains(Lower(cvText), s)
    ensures keywords.actionVerbs == PhrasesIn(ActionVerbList, Lower(cvText))
    ensures |keywords.achievements| <= 10
    ensures keywords.achievements == Take(AllMatches(AchievementPatterns, cvText, findAll), 10)
  {
    var tokens := TokenizeAndFilter(CleanText(cvText), stopWords);
    TokensOfCleanText(cvText, stopWords);
    var top := TopKeywords(tokens, topN);
    var technical := ExtractTechnicalSkills(cvText);
    var verbs := ExtractActionVerbs(cvText);
    var achievements := ExtractAchievements(cvText, findAll);
    keywords := CvKeywords(top, technical, verbs, achievements);
  }
}
