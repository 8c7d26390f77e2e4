/**
  The parser of the language model's CV analysis (`_parse_cv_analysis` in
  utils/ollama_client.py): the score after `SCORE:`, the text itself, and the
  sections introduced by the four upper-case headers. The HTTP calls that
  produce the text are outside the model.
*/
module OllamaClient {
  import opened TextUtil
  import opened Wrappers

  /** The score reported when the text holds none. */
  const DefaultScore: nat := 70

  /** The most digits `int(...)` converts before raising. */
  const MaxIntDigits: nat := 4300

  // ---------------------------------------------------------------------------
  // The score
  // ---------------------------------------------------------------------------

  /** `SCORE:\s*(\d+)` matches at position `i`. The whitespace run is taken
      whole, since a shorter one is followed by whitespace, not a digit. */
  predicate ScoreMatchAt(text: string, i: nat) {
    i <= |text| && StartsWith(text[i..], "SCORE:")
    && var j := SkipSpaces(text, i + 6); j < |text| && IsDigit(text[j])
  }

  /** `re.search`: the leftmost match at or after `from`. */
  function FirstScoreMatch(text: string, from: nat): (r: Option<nat>)
    requires from <= |text|
    ensures r.Some? ==> (from <= r.value <= |text| && ScoreMatchAt(text, r.value)
      && forall i :: from <= i < r.value ==> !ScoreMatchAt(text, i))
    ensures r.None? ==> forall i :: from <= i <= |text| ==> !ScoreMatchAt(text, i)
    decreases |text| - from
  {
    if ScoreMatchAt(text, from) then Some(from)
    else if from == |text| then None
    else FirstScoreMatch(text, from + 1)
  }

  /** End of the run of digits starting at `j`: `\d+` is greedy. */
  function DigitRunEnd(s: string, j: nat): (k: nat)
    requires j <= |s|
    ensures j <= k <= |s|
    ensures forall m :: j <= m < k ==> IsDigit(s[m])
    ensures k == |s| || !IsDigit(s[k])
    decreases |s| - j
  {
    if j < |s| && IsDigit(s[j]) then DigitRunEnd(s, j + 1) else j
  }

  /** The captured digits of the leftmost match, if there is one. */
  function ScoreDigits(text: string): (r: Option<string>)
    ensures r.Some? ==> r.value != [] && AllDigits(r.value)
  {
    match FirstScoreMatch(text, 0)
    case None => None
    case Some(i) =>
      var j := SkipSpaces(text, i + 6);
      Some(text[j..DigitRunEnd(text, j)])
  }

  // ---------------------------------------------------------------------------
  // The sections
  // ---------------------------------------------------------------------------

  const HeaderPrefixes: seq<string> := ["STRENGTHS:", "AREAS FOR IMPROVEMENT:", "MISSING KEYWORDS:", "RECOMMENDATIONS:"]

  /** `line.upper().startswith(prefixes)` */
  predicate IsHeader(line: string) {
    exists p :: p in HeaderPrefixes && StartsWith(Upper(line), p)
  }

  /** `s.rstrip(c)` for one character. */
  function RStripChar(s: string, c: char): (r: string)
    ensures |r| <= |s| && r == s[..|r|]
    ensures r == [] || r[|r| - 1] != c
    ensures forall k :: |r| <= k < |s| ==> s[k] == c
  {
    if s != [] && s[|s| - 1] == c then RStripChar(s[..|s| - 1], c) else s
  }

  /** `s.replace(a, b)` for single characters. */
  function ReplaceChar(s: string, a: char, b: char): (r: string)
    ensures |r| == |s|
    ensures forall k :: 0 <= k < |s| ==> r[k] == if s[k] == a then b else s[k]
  {
    seq(|s|, k requires 0 <= k < |s| => if s[k] == a then b else s[k])
  }

  /** `line.rstrip(':').lower().replace(' ', '_')` */
  function HeaderKey(line: string): (key: string)
    ensures |key| <= |line|
    ensures ' ' !in key && NoUpper(key)
  {
    var r := ReplaceChar(Lower(RStripChar(line, ':')), ' ', '_');
    assert forall k :: 0 <= k < |r| ==> r[k] != ' ';
    r
  }

  /** A header line keeps a key that is not empty: every prefix starts with a letter. */
  lemma HeaderKeyNotEmpty(line: string)
    requires IsHeader(line)
    ensures HeaderKey(line) != []
  {
    var p :| p in HeaderPrefixes && StartsWith(Upper(line), p);
    assert Upper(line)[0] == p[0];
    assert line[0] != ':';
    assert |RStripChar(line, ':')| >= 1;
  }

  /** What the loop carries: the sections so far, the open section and its lines. */
  datatype ParseState = ParseState(sections: map<string, string>, current: Option<string>, content: seq<string>)

  const Start := ParseState(map[], None, [])

  /** One iteration of the loop over the lines. */
  function Step(st: ParseState, raw: string): ParseState {
    var line := Strip(raw);
    if IsHeader(line) then
      var sections := if st.current.Some? then st.sections[st.current.value := Join(st.content, '\n')] else st.sections;
      ParseState(sections, Some(HeaderKey(line)), [])
    else if line != [] && st.current.Some? then
      st.(content := st.content + [line])
    else st
  }

  /** The loop over `lines`. */
  function ParseLines(lines: seq<string>): ParseState {
    if lines == [] then Start else Step(ParseLines(lines[..|lines| - 1]), lines[|lines| - 1])
  }

  /** The open section's lines are stripped and not empty, and no line is
      held before the first header. */
  lemma {:induction false} ParseLinesShape(lines: seq<string>)
    ensures var st := ParseLines(lines);
      && (forall k :: 0 <= k < |st.content| ==> st.content[k] != [] && IsStripped(st.content[k]))
      && (st.current.None? ==> st.content == [])
  {
    if lines != [] {
      ParseLinesShape(lines[..|lines| - 1]);
    }
  }

  /** Storing the open section after the loop. */
  function Close(st: ParseState): map<string, string> {
    if st.current.Some? then st.sections[st.current.value := Join(st.content, '\n')] else st.sections
  }

  /** The sections of `analysis_text`. */
  function AnalysisSections(text: string): map<string, string> {
    Close(ParseLines(Split(text, '\n')))
  }

  // ---------------------------------------------------------------------------
  // The whole parse
  // ---------------------------------------------------------------------------

  datatype CvAnalysis = CvAnalysis(score: nat, analysisText: string, sections: map<string, string>)

  /** What `_parse_cv_analysis` returns: a score too long for `int(...)` raises,
      and the handler gives the default score and no sections. */
  function ParsedAnalysis(text: string): (r: CvAnalysis)
    ensures r.analysisText == text
    ensures ScoreDigits(text).None? ==> r.score == DefaultScore
    ensures ScoreDigits(text).Some? && |ScoreDigits(text).value| > MaxIntDigits ==>
      r.score == DefaultScore && r.sections == map[]
    ensures ScoreDigits(text).Some? && |ScoreDigits(text).value| <= MaxIntDigits ==>
      r.score == DecimalValue(ScoreDigits(text).value)
    ensures (ScoreDigits(text).None? || |ScoreDigits(text).value| <= MaxIntDigits) ==>
      r.sections == AnalysisSections(text)
  {
    match ScoreDigits(text)
    case None => CvAnalysis(DefaultScore, text, AnalysisSections(text))
    case Some(ds) =>
      if |ds| > MaxIntDigits then CvAnalysis(DefaultScore, text, map[])
      else CvAnalysis(DecimalValue(ds), text, AnalysisSections(text))
  }

  /** The loop body: one line read into the parse state. */
  method ReadLine(sections: map<string, string>, current: Option<string>, content: seq<string>, raw: string)
    returns (sections': map<string, string>, current': Option<string>, content': seq<string>)
    ensures ParseState(sections', current', content') == Step(ParseState(sections, current, content), raw)
  {
    sections', current', content' := sections, current, content;
    var line := Strip(raw);
    if IsHeader(line) {
      if current.Some? {
        sections' := sections[current.value := Join(content, '\n')];
      }
      current' := Some(HeaderKey(line));
      content' := [];
    } else if line != [] && current.Some? {
      content' := content + [line];
    }
  }

  /** The loop of `_parse_cv_analysis` over the lines. */
  method ReadLines(lines: seq<string>) returns (sections: map<string, string>, current: Option<string>, content: seq<string>)
    ensures ParseState(sections, current, content) == ParseLines(lines)
  {
    sections, current, content := map[], None, [];
    var i := 0;
    while i < |lines|
      invariant 0 <= i <= |lines|
      invariant ParseState(sections, current, content) == ParseLines(lines[..i])
    {
      assert lines[..i + 1][..i] == lines[..i];
      sections, current, content := ReadLine(sections, current, content, lines[i]);
      i := i + 1;
    }
    assert lines[..i] == lines;
  }

  /** `_parse_cv_analysis` */
  method ParseCvAnalysis(text: string) returns (r: CvAnalysis)
    ensures r == ParsedAnalysis(text)
  {
    var digits := ScoreDigits(text);
    if digits.Some? && |digits.value| > MaxIntDigits {
      return CvAnalysis(DefaultScore, text, map[]);
    }
    var score := if digits.Some? then DecimalValue(digits.value) else DefaultScore;
    var sections, current, content := ReadLines(Split(text, '\n'));
    if current.Some? {
      sections := sections[current.value := Join(content, '\n')];
    }
    r := CvAnalysis(score, text, sections);
  }

  // ---------------------------------------------------------------------------
  // Properties
  // ---------------------------------------------------------------------------

  /** The number after `SCORE:` is read back exactly, however large: the score
      is not clamped to 100. */
  lemma ScoreRoundTrip(n: nat, rest: string)
    requires |NatToDecimal(n)| <= MaxIntDigits
    requires rest == [] || !IsDigit(rest[0])
    ensures ParsedAnalysis("SCORE: " + NatToDecimal(n) + rest).score == n
  {
    var ds := NatToDecimal(n);
    var text := "SCORE: " + ds + rest;
    assert text[..6] == "SCORE:";
    assert text[6] == ' ';
    SpaceIsSpace();
    assert SkipSpaces(text, 6) == SkipSpaces(text, 7);
    WordCharNotSpace(ds[0]);
    assert text[7] == ds[0];
    assert SkipSpaces(text, 7) == 7;
    assert ScoreMatchAt(text, 0);
    DigitRunAll(text, 7, 7 + |ds|);
    assert text[7..7 + |ds|] == ds;
    DecimalRoundTrip(n);
  }

  /** A run of digits ending before a non-digit is read whole. */
  lemma {:induction false} DigitRunAll(s: string, j: nat, k: nat)
    requires j <= k <= |s|
    requires forall m :: j <= m < k ==> IsDigit(s[m])
    requires k == |s| || !IsDigit(s[k])
    ensures DigitRunEnd(s, j) == k
    decreases k - j
  {
    if j < k {
      DigitRunAll(s, j + 1, k);
    }
  }

  /** Without a header, every line is discarded and nothing is open. */
  lemma {:induction false} NoHeaderNoSections(lines: seq<string>)
    requires forall k :: 0 <= k < |lines| ==> !IsHeader(Strip(lines[k]))
    ensures ParseLines(lines) == Start
  {
    if lines != [] {
      NoHeaderNoSections(lines[..|lines| - 1]);
    }
  }

  /** Some line of `lines` is a header with key `key`. */
  predicate HeaderIn(lines: seq<string>, key: string) {
    exists k :: 0 <= k < |lines| && IsHeader(Strip(lines[k])) && key == HeaderKey(Strip(lines[k]))
  }

  /** A key known after one line was known before it or is that line's own key. */
  lemma StepKeys(st: ParseState, raw: string, key: string)
    requires key in Step(st, raw).sections || Step(st, raw).current == Some(key)
    ensures key in st.sections || st.current == Some(key)
      || (IsHeader(Strip(raw)) && key == HeaderKey(Strip(raw)))
  {
  }

  /** A header found among the first lines is still found after one more. */
  lemma HeaderInSnoc(init: seq<string>, last: string, key: string)
    requires HeaderIn(init, key)
    ensures HeaderIn(init + [last], key)
  {
    var k :| 0 <= k < |init| && IsHeader(Strip(init[k])) && key == HeaderKey(Strip(init[k]));
    assert (init + [last])[k] == init[k];
  }

  /** Every stored or open key is the key of a header line. */
  lemma {:induction false} KeysFromHeaders(lines: seq<string>, key: string)
    requires key in ParseLines(lines).sections || ParseLines(lines).current == Some(key)
    ensures HeaderIn(lines, key)
  {
    if lines != [] {
      var init, last := lines[..|lines| - 1], lines[|lines| - 1];
      assert lines == init + [last];
      StepKeys(ParseLines(init), last, key);
      if IsHeader(Strip(last)) && key == HeaderKey(Strip(last)) {
        assert (init + [last])[|init|] == last;
      } else {
        KeysFromHeaders(init, key);
        HeaderInSnoc(init, last, key);
      }
    }
  }

  /** Every section of the result is named by a header line of the text. */
  lemma SectionKeysFromHeaders(text: string, key: string)
    requires key in AnalysisSections(text)
    ensures HeaderIn(Split(text, '\n'), key)
  {
    KeysFromHeaders(Split(text, '\n'), key);
  }

  /** The lines of `body` that the loop keeps for an open section: stripped,
      the empty ones dropped, in order. */
  function KeptLines(body: seq<string>): (r: seq<string>)
    ensures |r| <= |body|
  {
    if body == [] then []
    else
      var line := Strip(body[|body| - 1]);
      KeptLines(body[..|body| - 1]) + (if line != [] then [line] else [])
  }

  /** A line that is not a header adds its stripped text, when not empty, to the open section. */
  lemma StepBodyLine(st: ParseState, raw: string)
    requires st.current.Some? && !IsHeader(Strip(raw))
    ensures Step(st, raw) == st.(content := st.content + (if Strip(raw) != [] then [Strip(raw)] else []))
  {
  }

  /** The loop over `lines`, started from the state `st`. */
  function Run(st: ParseState, lines: seq<string>): ParseState {
    if lines == [] then st else Step(Run(st, lines[..|lines| - 1]), lines[|lines| - 1])
  }

  /** One more line is one more step. */
  lemma ParseLinesSnoc(init: seq<string>, last: string)
    ensures ParseLines(init + [last]) == Step(ParseLines(init), last)
  {
    assert (init + [last])[..|init|] == init;
  }

  /** Reading `prefix + body` is reading `body` from the state `prefix` leaves. */
  lemma {:induction false} ParseLinesRun(prefix: seq<string>, body: seq<string>)
    ensures ParseLines(prefix + body) == Run(ParseLines(prefix), body)
    decreases |body|
  {
    if body == [] {
      assert prefix + body == prefix;
    } else {
      var init, last := body[..|body| - 1], body[|body| - 1];
      assert prefix + body == (prefix + init) + [last];
      ParseLinesRun(prefix, init);
      ParseLinesSnoc(prefix + init, last);
    }
  }

  /** While a section is open and no header comes, the loop only adds the
      kept lines to the open section. */
  lemma {:induction false} ReadBody(st: ParseState, body: seq<string>)
    requires st.current.Some?
    requires forall k :: 0 <= k < |body| ==> !IsHeader(Strip(body[k]))
    ensures Run(st, body) == st.(content := st.content + KeptLines(body))
    decreases |body|
  {
    if body != [] {
      var init, last := body[..|body| - 1], body[|body| - 1];
      assert forall k :: 0 <= k < |init| ==> !IsHeader(Strip(init[k])) by {
        forall k | 0 <= k < |init| ensures !IsHeader(Strip(init[k])) {
          assert init[k] == body[k];
        }
      }
      ReadBody(st, init);
      StepBodyLine(Run(st, init), last);
    }
  }

  /** A header line opens its own section with nothing in it yet. */
  lemma HeaderOpens(pre: seq<string>, header: string)
    requires IsHeader(Strip(header))
    ensures ParseLines(pre + [header]).current == Some(HeaderKey(Strip(header)))
    ensures ParseLines(pre + [header]).content == []
  {
    ParseLinesSnoc(pre, header);
  }

  /** What a section holds: after its last header, the kept lines up to the
      next header (or the end), joined by newlines. A repeated header
      overwrites the section, since only its last occurrence counts. */
  lemma SectionContent(text: string, pre: seq<string>, header: string, body: seq<string>)
    requires Split(text, '\n') == pre + [header] + body
    requires IsHeader(Strip(header))
    requires forall k :: 0 <= k < |body| ==> !IsHeader(Strip(body[k]))
    ensures HeaderKey(Strip(header)) in AnalysisSections(text)
    ensures AnalysisSections(text)[HeaderKey(Strip(header))] == Join(KeptLines(body), '\n')
  {
    var key := HeaderKey(Strip(header));
    HeaderOpens(pre, header);
    ParseLinesRun(pre + [header], body);
    ReadBody(ParseLines(pre + [header]), body);
    var st := ParseLines(Split(text, '\n'));
    assert st.current == Some(key) && st.content == KeptLines(body);
    assert AnalysisSections(text) == st.sections[key := Join(KeptLines(body), '\n')];
  }

  /** A stored section keeps its value while another section is open and no
      line opens it again. */
  lemma StepPreserves(st: ParseState, raw: string, key: string, v: string)
    requires key in st.sections && st.sections[key] == v && st.current != Some(key)
    requires IsHeader(Strip(raw)) ==> HeaderKey(Strip(raw)) != key
    ensures key in Step(st, raw).sections && Step(st, raw).sections[key] == v
    ensures Step(st, raw).current != Some(key)
  {
  }

  /** The same over any run of lines none of which is a header for `key`. */
  lemma {:induction false} RunPreserves(st: ParseState, more: seq<string>, key: string, v: string)
    requires key in st.sections && st.sections[key] == v && st.current != Some(key)
    requires forall k :: 0 <= k < |more| && IsHeader(Strip(more[k])) ==> HeaderKey(Strip(more[k])) != key
    ensures key in Run(st, more).sections && Run(st, more).sections[key] == v
    ensures Run(st, more).current != Some(key)
    decreases |more|
  {
    if more != [] {
      var init, last := more[..|more| - 1], more[|more| - 1];
      assert forall k :: 0 <= k < |init| && IsHeader(Strip(init[k])) ==> HeaderKey(Strip(init[k])) != key by {
        forall k | 0 <= k < |init| && IsHeader(Strip(init[k])) ensures HeaderKey(Strip(init[k])) != key {
          assert init[k] == more[k];
        }
      }
      RunPreserves(st, init, key, v);
      StepPreserves(Run(st, init), last, key, v);
    }
  }

  /** After a header and lines that are not headers, the header's section is
      open and holds the kept lines. */
  lemma OpenAfterBody(pre: seq<string>, header: string, body: seq<string>)
    requires IsHeader(Strip(header))
    requires forall k :: 0 <= k < |body| ==> !IsHeader(Strip(body[k]))
    ensures ParseLines(pre + [header] + body).current == Some(HeaderKey(Strip(header)))
    ensures ParseLines(pre + [header] + body).content == KeptLines(body)
  {
    HeaderOpens(pre, header);
    ParseLinesRun(pre + [header], body);
    ReadBody(ParseLines(pre + [header]), body);
  }

  /** A header line stores the open section and opens its own. */
  lemma StepHeader(st: ParseState, raw: string)
    requires IsHeader(Strip(raw))
    ensures Step(st, raw) == ParseState(Close(st), Some(HeaderKey(Strip(raw))), [])
  {
  }

  /** The next header stores the open section with its kept lines and opens
      a different one. */
  lemma ClosedByNext(pre: seq<string>, header: string, body: seq<string>, next: string)
    requires IsHeader(Strip(header)) && IsHeader(Strip(next))
    requires HeaderKey(Strip(next)) != HeaderKey(Strip(header))
    requires forall k :: 0 <= k < |body| ==> !IsHeader(Strip(body[k]))
    ensures var st := ParseLines(pre + [header] + body + [next]);
      && HeaderKey(Strip(header)) in st.sections
      && st.sections[HeaderKey(Strip(header))] == Join(KeptLines(body), '\n')
      && st.current != Some(HeaderKey(Strip(header)))
  {
    var st := ParseLines(pre + [header] + body);
    OpenAfterBody(pre, header, body);
    ParseLinesSnoc(pre + [header] + body, next);
    StepHeader(st, next);
  }

  /** What a section followed by another header holds: the kept lines between
      its header and the next header, joined by newlines, as long as no later
      line opens the same section again. */
  lemma SectionContentMiddle(text: string, pre: seq<string>, header: string, body: seq<string>,
                             next: string, rest: seq<string>)
    requires Split(text, '\n') == pre + [header] + body + [next] + rest
    requires IsHeader(Strip(header)) && IsHeader(Strip(next))
    requires HeaderKey(Strip(next)) != HeaderKey(Strip(header))
    requires forall k :: 0 <= k < |body| ==> !IsHeader(Strip(body[k]))
    requires forall k :: 0 <= k < |rest| && IsHeader(Strip(rest[k])) ==>
      HeaderKey(Strip(rest[k])) != HeaderKey(Strip(header))
    ensures HeaderKey(Strip(header)) in AnalysisSections(text)
    ensures AnalysisSections(text)[HeaderKey(Strip(header))] == Join(KeptLines(body), '\n')
  {
    var key, v := HeaderKey(Strip(header)), Join(KeptLines(body), '\n');
    var upTo := pre + [header] + body + [next];
    ClosedByNext(pre, header, body, next);
    ParseLinesRun(upTo, rest);
    RunPreserves(ParseLines(upTo), rest, key, v);
    CloseKeeps(ParseLines(upTo + rest), key, v);
  }

  /** Storing the open section leaves every other stored section as it was. */
  lemma CloseKeeps(st: ParseState, key: string, v: string)
    requires key in st.sections && st.sections[key] == v && st.current != Some(key)
    ensures key in Close(st) && Close(st)[key] == v
  {
  }

  /** A key stored or open stays stored or open after one more line. */
  lemma StepKeepsKey(st: ParseState, raw: string, key: string)
    requires key in st.sections || st.current == Some(key)
    ensures key in Step(st, raw).sections || Step(st, raw).current == Some(key)
  {
  }

  /** A key stored or open stays stored or open whatever lines follow. */
  lemma {:induction false} RunKeepsKey(st: ParseState, more: seq<string>, key: string)
    requires key in st.sections || st.current == Some(key)
    ensures key in Run(st, more).sections || Run(st, more).current == Some(key)
    decreases |more|
  {
    if more != [] {
      RunKeepsKey(st, more[..|more| - 1], key);
      StepKeepsKey(Run(st, more[..|more| - 1]), more[|more| - 1], key);
    }
  }

  /** A sequence is its part before `k`, its element at `k` and its part after. */
  lemma SplitAround<T>(s: seq<T>, k: nat)
    requires k < |s|
    ensures s == (s[..k] + [s[k]]) + s[k + 1..]
  {
  }

  /** Every header line names a section once the open one is stored. */
  lemma HeaderKeyKept(lines: seq<string>, k: nat)
    requires k < |lines| && IsHeader(Strip(lines[k]))
    ensures HeaderKey(Strip(lines[k])) in Close(ParseLines(lines))
  {
    var pre, rest := lines[..k], lines[k + 1..];
    SplitAround(lines, k);
    HeaderOpens(pre, lines[k]);
    ParseLinesRun(pre + [lines[k]], rest);
    RunKeepsKey(ParseLines(pre + [lines[k]]), rest, HeaderKey(Strip(lines[k])));
  }

  /** Every header line of the text names a section of the result. */
  lemma HeaderKeysPresent(text: string, k: nat)
    requires k < |Split(text, '\n')| && IsHeader(Strip(Split(text, '\n')[k]))
    ensures HeaderKey(Strip(Split(text, '\n')[k])) in AnalysisSections(text)
  {
    HeaderKeyKept(Split(text, '\n'), k);
  }
}
