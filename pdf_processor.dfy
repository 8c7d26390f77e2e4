/**
  The text side of the CV file processor (utils/pdf_processor.py): which
  reader a file name selects, line clean-up of extracted text, and the split
  of a CV into sections by header keywords. The PDF and DOCX readers
  themselves are outside the model.
*/
module PdfProcessor {
  import opened TextUtil
  import opened Wrappers

  // ---------------------------------------------------------------------------
  // Reader dispatch
  // ---------------------------------------------------------------------------

  datatype Format = Pdf | Docx

  /** `name.split('.')[-1].lower()` */
  function Extension(fileName: string): (e: string)
    ensures '.' !in e && NoUpper(e)
  {
    var parts := Split(fileName, '.');
    assert parts[|parts| - 1] in parts;
    Lower(LastPiece(fileName, '.'))
  }

  /** `extract_text`: the reader chosen by the extension, or the error raised
      for any other extension. */
  function Dispatch(fileName: string): (r: Result<Format, string>)
    ensures r == Ok(Pdf) <==> Extension(fileName) == "pdf"
    ensures r == Ok(Docx) <==> Extension(fileName) == "docx"
    ensures r.Err? ==> r.error == "Unsupported file format: " + Extension(fileName)
  {
    var extension := Extension(fileName);
    if extension == "pdf" then Ok(Pdf)
    else if extension == "docx" then Ok(Docx)
    else Err("Unsupported file format: " + extension)
  }

  /** Only the text after the last dot counts, whatever its case. */
  lemma DispatchBySuffix(stem: string, extension: string)
    requires '.' !in extension
    ensures Extension(stem + "." + extension) == Lower(extension)
    ensures Dispatch(stem + "." + extension) ==
      if Lower(extension) == "pdf" then Ok(Pdf)
      else if Lower(extension) == "docx" then Ok(Docx)
      else Err("Unsupported file format: " + Lower(extension))
  {
    SplitLast(stem, '.', extension);
  }

  /** An upper-case suffix selects the PDF reader. */
  lemma DispatchUpperCase(stem: string)
    ensures Dispatch(stem + ".PDF") == Ok(Pdf)
  {
    DispatchBySuffix(stem, "PDF");
    assert stem + "." + "PDF" == stem + ".PDF";
    assert Lower("PDF") == "pdf";
  }

  /** A name without a dot is its own extension. */
  lemma DispatchNoDot(fileName: string)
    requires '.' !in fileName
    ensures Extension(fileName) == Lower(fileName)
  {
    assert Split(fileName, '.') == [fileName];
  }

  // ---------------------------------------------------------------------------
  // clean_text
  // ---------------------------------------------------------------------------

  /** The stripped lines longer than one character, in order. */
  function CleanedLines(lines: seq<string>): (r: seq<string>)
    ensures |r| <= |lines|
    ensures forall k :: 0 <= k < |r| ==> IsStripped(r[k]) && |r[k]| > 1
  {
    if lines == [] then []
    else
      var line := Strip(lines[|lines| - 1]);
      CleanedLines(lines[..|lines| - 1]) + (if |line| > 1 then [line] else [])
  }

  /** Cleaning works line by line: the lines of two blocks are cleaned independently. */
  lemma {:induction false} CleanedLinesAppend(a: seq<string>, b: seq<string>)
    ensures CleanedLines(a + b) == CleanedLines(a) + CleanedLines(b)
    decreases |b|
  {
    if b != [] {
      var init := b[..|b| - 1];
      var line := Strip(b[|b| - 1]);
      var tail := if |line| > 1 then [line] else [];
      assert (a + b)[..|a + b| - 1] == a + init;
      assert (a + b)[|a + b| - 1] == b[|b| - 1];
      assert CleanedLines(a + b) == CleanedLines(a + init) + tail;
      CleanedLinesAppend(a, init);
      assert CleanedLines(b) == CleanedLines(init) + tail;
    } else {
      assert a + b == a;
    }
  }

  /** Cleaning keeps out a character no line holds. */
  lemma {:induction false} CleanedLinesAvoid(lines: seq<string>, c: char)
    requires forall l :: l in lines ==> c !in l
    ensures forall l :: l in CleanedLines(lines) ==> c !in l
  {
    if lines != [] {
      var init := lines[..|lines| - 1];
      assert forall l :: l in init ==> l in lines;
      CleanedLinesAvoid(init, c);
      StripInfix(lines[|lines| - 1]);
    }
  }

  /** Lines that are already stripped and longer than one character are kept as they are. */
  lemma {:induction false} CleanedLinesFixpoint(lines: seq<string>)
    requires forall k :: 0 <= k < |lines| ==> IsStripped(lines[k]) && |lines[k]| > 1
    ensures CleanedLines(lines) == lines
  {
    if lines != [] {
      CleanedLinesFixpoint(lines[..|lines| - 1]);
      StripNoop(lines[|lines| - 1]);
    }
  }

  /** What `clean_text` returns. */
  function CleanTextOf(text: string): string {
    Join(CleanedLines(Split(text, '\n')), '\n')
  }

  /** `clean_text`: strip every line and keep those longer than one character. */
  method CleanText(text: string) returns (cleaned: string)
    ensures cleaned == CleanTextOf(text)
  {
    var lines := Split(text, '\n');
    var kept: seq<string> := [];
    var i := 0;
    while i < |lines|
      invariant 0 <= i <= |lines|
      invariant kept == CleanedLines(lines[..i])
    {
      assert lines[..i + 1][..i] == lines[..i];
      var line := Strip(lines[i]);
      if |line| > 1 {
        kept := kept + [line];
      }
      i := i + 1;
    }
    assert lines[..i] == lines;
    cleaned := Join(kept, '\n');
  }

  /** The lines of cleaned text are its kept lines: each stripped and longer
      than one character, unless nothing was kept at all. */
  lemma CleanTextLines(text: string)
    ensures var kept := CleanedLines(Split(text, '\n'));
      (kept == [] && CleanTextOf(text) == "") || Split(CleanTextOf(text), '\n') == kept
  {
    var kept := CleanedLines(Split(text, '\n'));
    CleanedLinesAvoid(Split(text, '\n'), '\n');
    if kept != [] {
      SplitJoin(kept, '\n');
    }
  }

  /** Cleaning cleaned text changes nothing. */
  lemma CleanTextIdempotent(text: string)
    ensures CleanTextOf(CleanTextOf(text)) == CleanTextOf(text)
  {
    var kept := CleanedLines(Split(text, '\n'));
    CleanTextLines(text);
    if kept == [] {
      assert Split("", '\n') == [""];
      assert CleanedLines([""]) == CleanedLines([]) + [];
    } else {
      CleanedLinesFixpoint(kept);
    }
  }

  // ---------------------------------------------------------------------------
  // extract_sections
  // ---------------------------------------------------------------------------

  datatype Section = PersonalInfo | Summary | Experience | Education | Skills | Other
  {
    /** A section a header line can switch to. */
    predicate IsHeading() { this != PersonalInfo && this != Other }
  }

  /** The sections in the order the dictionary lists them. */
  const AllSections: seq<Section> := [PersonalInfo, Summary, Experience, Education, Skills, Other]

  /** The dictionary key of a section. */
  function Key(s: Section): string {
    match s
    case PersonalInfo => "personal_info"
    case Summary => "summary"
    case Experience => "experience"
    case Education => "education"
    case Skills => "skills"
    case Other => "other"
  }

  /** The header keywords of each section; the two without headers have none. */
  function Keywords(s: Section): seq<string> {
    match s
    case Summary => ["summary", "profile", "objective", "about"]
    case Experience => ["experience", "employment", "work history", "professional experience"]
    case Education => ["education", "academic", "qualifications"]
    case Skills => ["skills", "technical skills", "competencies", "expertise"]
    case _ => []
  }

  /** `any(keyword in text for keyword in keywords)` */
  predicate MentionsAny(text: string, keywords: seq<string>)
    decreases |keywords|
  {
    keywords != [] && (Contains(text, keywords[0]) || MentionsAny(text, keywords[1..]))
  }

  /** The line, stripped and lower-cased, holds one of the section's keywords. */
  predicate Mentions(line: string, s: Section) {
    MentionsAny(Lower(Strip(line)), Keywords(s))
  }

  /** The headings in the order the keyword dictionary lists them. */
  const Headings: seq<Section> := [Summary, Experience, Education, Skills]

  /** The position of the first `true` in `hits`, or `|hits|` if there is none:
      where the loop over the headings breaks. */
  function FirstHit(hits: seq<bool>): (i: nat)
    ensures i <= |hits|
    ensures i < |hits| ==> hits[i]
    ensures forall j :: 0 <= j < i ==> !hits[j]
  {
    if hits == [] then 0
    else if hits[0] then 0
    else 1 + FirstHit(hits[1..])
  }

  /** The section after reading `line`: the inner loop breaks at the first
      heading in dictionary order (summary, experience, education, skills)
      whose keyword the line holds, and otherwise leaves the section as it was. */
  function SectionAfter(line: string, current: Section): (r: Section)
    ensures r == current || (r.IsHeading() && Mentions(line, r))
    ensures Mentions(line, Summary) ==> r == Summary
    ensures !Mentions(line, Summary) && Mentions(line, Experience) ==> r == Experience
    ensures !Mentions(line, Summary) && !Mentions(line, Experience) && Mentions(line, Education) ==> r == Education
    ensures (!Mentions(line, Summary) && !Mentions(line, Experience) && !Mentions(line, Education)
      && Mentions(line, Skills)) ==> r == Skills
    ensures (!Mentions(line, Summary) && !Mentions(line, Experience)
      && !Mentions(line, Education) && !Mentions(line, Skills)) ==> r == current
  {
    var hits := [Mentions(line, Summary), Mentions(line, Experience), Mentions(line, Education), Mentions(line, Skills)];
    FirstHitOfFour(hits[0], hits[1], hits[2], hits[3]);
    var i := FirstHit(hits);
    if i < |Headings| then Headings[i] else current
  }

  /** Where the loop breaks over four headings. */
  lemma FirstHitOfFour(a: bool, b: bool, c: bool, d: bool)
    ensures FirstHit([a, b, c, d]) == if a then 0 else if b then 1 else if c then 2 else if d then 3 else 4
  {
    assert [a, b, c, d][1..] == [b, c, d];
    assert [b, c, d][1..] == [c, d];
    assert [c, d][1..] == [d];
    assert [d][1..] == [];
    assert FirstHit([d]) == if d then 0 else 1;
    assert FirstHit([c, d]) == if c then 0 else 1 + FirstHit([d]);
    assert FirstHit([b, c, d]) == if b then 0 else 1 + FirstHit([c, d]);
  }

  /** The sections dictionary: one text per key. */
  datatype Sections = Sections(personalInfo: string, summary: string, experience: string,
                               education: string, skills: string, other: string)
  {
    function Get(s: Section): string {
      match s
      case PersonalInfo => personalInfo
      case Summary => summary
      case Experience => experience
      case Education => education
      case Skills => skills
      case Other => other
    }

    function Set(s: Section, v: string): (r: Sections)
      ensures r.Get(s) == v
      ensures forall t :: t != s ==> r.Get(t) == Get(t)
    {
      match s
      case PersonalInfo => this.(personalInfo := v)
      case Summary => this.(summary := v)
      case Experience => this.(experience := v)
      case Education => this.(education := v)
      case Skills => this.(skills := v)
      case Other => this.(other := v)
    }
  }

  /** Every section starts empty. */
  const EmptySections := Sections("", "", "", "", "", "")

  /** The text gathered per section and the current section after `lines`. */
  function Scan(lines: seq<string>): (st: (Sections, Section))
    ensures st.1 != PersonalInfo
  {
    if lines == [] then (EmptySections, Other)
    else
      var (buffers, current) := Scan(lines[..|lines| - 1]);
      var line := lines[|lines| - 1];
      var next := SectionAfter(line, current);
      if Strip(line) != [] then (buffers.Set(next, buffers.Get(next) + line + "\n"), next)
      else (buffers, next)
  }

  /** The section a line is filed under: the heading routing applied to every
      line so far, starting from "other". */
  function RoutedTo(lines: seq<string>): Section
    requires lines != []
  {
    var init := lines[..|lines| - 1];
    SectionAfter(lines[|lines| - 1], if init == [] then Other else RoutedTo(init))
  }

  /** The text of section `s` gathered by the source's loop: every line that is
      not blank and is routed to `s`, each followed by a newline, in order. */
  function Gathered(lines: seq<string>, s: Section): string {
    if lines == [] then ""
    else
      var line := lines[|lines| - 1];
      Gathered(lines[..|lines| - 1], s) + (if Strip(line) != [] && RoutedTo(lines) == s then line + "\n" else "")
  }

  /** The loop's current section is the routing of the lines read so far. */
  lemma {:induction false} ScanRoute(lines: seq<string>)
    requires lines != []
    ensures Scan(lines).1 == RoutedTo(lines)
  {
    var init := lines[..|lines| - 1];
    if init != [] {
      ScanRoute(init);
    }
  }

  /** One iteration adds a non-blank line to the section it is routed to and
      leaves every other section as it was. */
  lemma GatherStep(b: Sections, next: Section, line: string, s: Section)
    ensures (if Strip(line) != [] then b.Set(next, b.Get(next) + line + "\n") else b).Get(s)
      == b.Get(s) + (if Strip(line) != [] && next == s then line + "\n" else "")
  {
  }

  /** The loop gathers exactly the non-blank lines routed to each section. */
  lemma {:induction false} ScanGathered(lines: seq<string>, s: Section)
    ensures Scan(lines).0.Get(s) == Gathered(lines, s)
  {
    if lines != [] {
      var init, line := lines[..|lines| - 1], lines[|lines| - 1];
      ScanGathered(init, s);
      ScanRoute(lines);
      GatherStep(Scan(init).0, Scan(lines).1, line, s);
    }
  }

  /** A blank line is never gathered: it leaves every section's text as it was. */
  lemma BlankLineIgnored(lines: seq<string>, line: string)
    requires Strip(line) == []
    ensures Scan(lines + [line]).0 == Scan(lines).0
  {
    assert (lines + [line])[..|lines|] == lines;
  }

  /** Nothing is ever gathered for the personal-information section. */
  lemma {:induction false} ScanPersonalInfo(lines: seq<string>)
    ensures Scan(lines).0.personalInfo == ""
  {
    if lines != [] {
      ScanPersonalInfo(lines[..|lines| - 1]);
    }
  }

  /** Lines without upper case gather text without upper case. */
  lemma {:induction false} ScanNoUpper(lines: seq<string>, s: Section)
    requires forall k :: 0 <= k < |lines| ==> NoUpper(lines[k])
    ensures NoUpper(Scan(lines).0.Get(s))
  {
    if lines != [] {
      var init := lines[..|lines| - 1];
      var (buffers, current) := Scan(init);
      var line := lines[|lines| - 1];
      var next := SectionAfter(line, current);
      ScanNoUpper(init, s);
      ScanNoUpper(init, next);
      var appended := buffers.Get(next) + line + "\n";
      NoUpperConcat(buffers.Get(next), line);
      NoUpperConcat(buffers.Get(next) + line, "\n");
      assert Scan(lines).0 == if Strip(line) != [] then buffers.Set(next, appended) else buffers;
    }
  }

  lemma NoUpperConcat(a: string, b: string)
    requires NoUpper(a) && NoUpper(b)
    ensures NoUpper(a + b)
  {
    forall k | 0 <= k < |a + b| ensures !IsUpper((a + b)[k]) {
      if k >= |a| {
        assert (a + b)[k] == b[k - |a|];
      }
    }
  }

  /** A heading section is current or holds text only after a line mentioning it. */
  lemma {:induction false} ScanNeedsHeader(lines: seq<string>, s: Section)
    requires s.IsHeading()
    requires Scan(lines).1 == s || Scan(lines).0.Get(s) != ""
    ensures exists k :: 0 <= k < |lines| && Mentions(lines[k], s)
  {
    var init := lines[..|lines| - 1];
    var line := lines[|lines| - 1];
    var (buffers, current) := Scan(init);
    if SectionAfter(line, current) == s && current != s {
      assert Mentions(lines[|lines| - 1], s);
    } else {
      assert current == s || buffers.Get(s) != "";
      ScanNeedsHeader(init, s);
      var k :| 0 <= k < |init| && Mentions(init[k], s);
      assert lines[k] == init[k];
    }
  }

  /** Splitting text without upper case gives pieces without upper case. */
  lemma {:induction false} SplitNoUpper(s: string, sep: char)
    requires NoUpper(s)
    ensures forall k :: 0 <= k < |Split(s, sep)| ==> NoUpper(Split(s, sep)[k])
    decreases |s|
  {
    if sep in s {
      var i := IndexOfChar(s, sep);
      SplitCons(s, sep);
      SplitNoUpper(s[i + 1..], sep);
      assert NoUpper(s[..i]);
    }
  }

  /** The lines `extract_sections` reads: the lower-cased text split at newlines. */
  function SectionLines(text: string): (lines: seq<string>)
    ensures forall k :: 0 <= k < |lines| ==> NoUpper(lines[k])
  {
    SplitNoUpper(Lower(text), '\n');
    Split(Lower(text), '\n')
  }

  /** Every section stripped. */
  function StripAll(b: Sections): Sections {
    Sections(Strip(b.personalInfo), Strip(b.summary), Strip(b.experience),
             Strip(b.education), Strip(b.skills), Strip(b.other))
  }

  lemma StripAllGet(b: Sections, s: Section)
    ensures StripAll(b).Get(s) == Strip(b.Get(s))
  {
    match s
    case PersonalInfo =>
    case Summary =>
    case Experience =>
    case Education =>
    case Skills =>
    case Other =>
  }

  /** What `extract_sections` returns. */
  function SectionsOf(text: string): Sections {
    StripAll(Scan(SectionLines(text)).0)
  }

  /** The loop of `extract_sections` over the lines. */
  method GatherSections(lines: seq<string>) returns (buffers: Sections)
    ensures buffers == Scan(lines).0
  {
    buffers := EmptySections;
    var current := Other;
    var i := 0;
    while i < |lines|
      invariant 0 <= i <= |lines|
      invariant (buffers, current) == Scan(lines[..i])
    {
      assert lines[..i + 1][..i] == lines[..i];
      var line := lines[i];
      current := SectionAfter(line, current);
      if Strip(line) != [] {
        buffers := buffers.Set(current, buffers.Get(current) + line + "\n");
      }
      i := i + 1;
    }
    assert lines[..i] == lines;
  }

  /** Two dictionaries that agree on every key are equal. */
  lemma SectionsExt(a: Sections, b: Sections)
    requires forall s :: a.Get(s) == b.Get(s)
    ensures a == b
  {
    assert a.Get(PersonalInfo) == b.Get(PersonalInfo) && a.Get(Summary) == b.Get(Summary);
    assert a.Get(Experience) == b.Get(Experience) && a.Get(Education) == b.Get(Education);
    assert a.Get(Skills) == b.Get(Skills) && a.Get(Other) == b.Get(Other);
  }

  lemma AllSectionsComplete()
    ensures forall s: Section :: s in AllSections
  {
    forall s: Section ensures s in AllSections {
      match s
      case PersonalInfo =>
      case Summary =>
      case Experience =>
      case Education =>
      case Skills =>
      case Other =>
    }
  }

  /** The clean-up loop of `extract_sections`: strip every section. */
  method StripSections(buffers: Sections) returns (sections: Sections)
    ensures sections == StripAll(buffers)
  {
    sections := buffers;
    var k := 0;
    while k < |AllSections|
      invariant 0 <= k <= |AllSections|
      invariant forall s :: sections.Get(s) == if s in AllSections[..k] then Strip(buffers.Get(s)) else buffers.Get(s)
    {
      var s := AllSections[k];
      assert AllSections[..k + 1] == AllSections[..k] + [s];
      sections := sections.Set(s, Strip(buffers.Get(s)));
      k := k + 1;
    }
    AllSectionsComplete();
    assert AllSections[..k] == AllSections;
    forall s ensures sections.Get(s) == StripAll(buffers).Get(s) {
      StripAllGet(buffers, s);
    }
    SectionsExt(sections, StripAll(buffers));
  }

  /** `extract_sections`: gather each non-blank line under the last header seen
      (starting under "other"), then strip every section. */
  method ExtractSections(text: string) returns (sections: Sections)
    ensures sections == SectionsOf(text)
  {
    var buffers := GatherSections(SectionLines(text));
    sections := StripSections(buffers);
  }

  /** Personal information is always empty. */
  lemma PersonalInfoEmpty(text: string)
    ensures SectionsOf(text).personalInfo == ""
  {
    ScanPersonalInfo(SectionLines(text));
  }

  lemma StripKeepsNoUpper(x: string)
    requires NoUpper(x)
    ensures NoUpper(Strip(x))
  {
    StripInfix(x);
    forall k | 0 <= k < |Strip(x)| ensures !IsUpper(Strip(x)[k]) {
      assert Strip(x)[k] in x;
    }
  }

  /** Every section is lower case and stripped. */
  lemma SectionLowerStripped(text: string, s: Section)
    ensures NoUpper(SectionsOf(text).Get(s)) && IsStripped(SectionsOf(text).Get(s))
  {
    var buffers := Scan(SectionLines(text)).0;
    ScanNoUpper(SectionLines(text), s);
    StripAllGet(buffers, s);
    StripKeepsNoUpper(buffers.Get(s));
  }

  /** What each section holds: the non-blank lower-cased lines routed to it,
      each followed by a newline, in order, and then stripped. */
  lemma SectionContents(text: string, s: Section)
    ensures SectionsOf(text).Get(s) == Strip(Gathered(SectionLines(text), s))
  {
    ScanGathered(SectionLines(text), s);
    StripAllGet(Scan(SectionLines(text)).0, s);
  }

  /** A heading section holds text only if some line mentions one of its keywords. */
  lemma SectionNeedsHeader(text: string, s: Section)
    requires s.IsHeading() && SectionsOf(text).Get(s) != ""
    ensures exists k :: 0 <= k < |SectionLines(text)| && Mentions(SectionLines(text)[k], s)
  {
    var lines := SectionLines(text);
    StripAllGet(Scan(lines).0, s);
    assert Scan(lines).0.Get(s) != "";
    ScanNeedsHeader(lines, s);
  }
}
